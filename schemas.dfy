/** The zod schemas the forms validate with. A schema parses the raw form values into the
    typed data the submit handlers take, or rejects them with the issues it found, one per
    broken rule, in field order. A field under `z.coerce.number()` is given as the value
    `Number(input)` produced; the `parseInt` transform works on the raw text. */
module Schemas {
  import opened Common
  import opened Text
  import opened Numbers
  import opened CatalogService
  import opened OfficeService
  import opened VoucherService
  import opened PageSubmits
  import AssetService
  import StockService

  /** A JavaScript number as zod's number type sees it (infinities are not modelled). */
  datatype JsNumber = NaN | Num(v: real)

  datatype IssueKind = InvalidType | TooSmall | TooBig | NotInteger | InvalidEnum | InvalidEmail

  /** A zod issue: the path of the offending value and the rule it broke. */
  datatype Issue = Issue(path: seq<string>, kind: IssueKind)

  predicate IsIntegral(v: real)
  {
    v == v.Floor as real
  }

  // ----- field rules -----

  /** `z.coerce.number()`, then `.int()` when `integer`, then `.min(min)` (or `.positive()`,
      which is the exclusive bound 0, when `!inclusive`). NaN fails the number type alone;
      otherwise every failing check is reported. */
  function NumberIssues(path: seq<string>, x: JsNumber, integer: bool, min: real, inclusive: bool): (r: seq<Issue>)
    ensures r == [] <==> x.Num? && (integer ==> IsIntegral(x.v)) && (if inclusive then x.v >= min else x.v > min)
    ensures forall i :: 0 <= i < |r| ==> r[i].path == path
    ensures x.NaN? ==> r == [Issue(path, InvalidType)]
  {
    match x
    case NaN => [Issue(path, InvalidType)]
    case Num(v) =>
      (if integer && !IsIntegral(v) then [Issue(path, NotInteger)] else [])
      + (if (if inclusive then v < min else v <= min) then [Issue(path, TooSmall)] else [])
  }

  /** `z.string().min(min)` and, when given, `.max(max)`, on the UTF-16 length. */
  function LengthIssues(path: seq<string>, s: string, min: nat, max: Option<nat>): (r: seq<Issue>)
    ensures r == [] <==> min <= Utf16Length(s) && (max.Some? ==> Utf16Length(s) <= max.value)
    ensures forall i :: 0 <= i < |r| ==> r[i].path == path
  {
    (if Utf16Length(s) < min then [Issue(path, TooSmall)] else [])
    + (if max.Some? && Utf16Length(s) > max.value then [Issue(path, TooBig)] else [])
  }

  /** `z.enum(options)`. */
  function EnumIssues(path: seq<string>, s: string, options: seq<string>): (r: seq<Issue>)
    ensures r == [] <==> s in options
    ensures forall i :: 0 <= i < |r| ==> r[i].path == path && r[i].kind == InvalidEnum
  {
    if s in options then [] else [Issue(path, InvalidEnum)]
  }

  /** The integer value of a number that `.int()` accepted. */
  function IntOf(x: JsNumber): (n: int)
    requires x.Num? && IsIntegral(x.v)
    ensures n as real == x.v
  {
    x.v.Floor
  }

  // ----- stockAdjustSchema -----

  datatype StockAdjustInput = StockAdjustInput(stockID: JsNumber, action: string, quantityChange: JsNumber, notes: Option<string>)

  datatype StockAdjustData = StockAdjustData(stockID: real, action: StockService.StockAction, quantityChange: int, notes: Option<string>)

  const AdjustActionLabels: seq<string> := ["Issued", "Written Off", "Count Correction - Increase", "Count Correction - Decrease"]

  /** The action strings of the stock log. */
  function ActionLabel(a: StockService.StockAction): string
  {
    match a
    case StockAdded => "Stock Added"
    case Issued => "Issued"
    case CountCorrectionIncrease => "Count Correction - Increase"
    case CountCorrectionDecrease => "Count Correction - Decrease"
    case WrittenOff => "Written Off"
  }

  /** The action named by a label the schema accepts. */
  function AdjustActionOf(text: string): (a: StockService.StockAction)
    requires text in AdjustActionLabels
    ensures ActionLabel(a) == text
  {
    if text == "Issued" then StockService.Issued
    else if text == "Written Off" then StockService.WrittenOff
    else if text == "Count Correction - Increase" then StockService.CountCorrectionIncrease
    else StockService.CountCorrectionDecrease
  }

  function StockAdjustIssues(raw: StockAdjustInput): seq<Issue>
  {
    NumberIssues(["stockID"], raw.stockID, false, 1.0, true)
    + EnumIssues(["action"], raw.action, AdjustActionLabels)
    + NumberIssues(["quantityChange"], raw.quantityChange, true, 0.0, false)
  }

  /** `stockAdjustSchema.safeParse`: a stock id of at least 1, one of the four adjustment
      actions, and a positive whole quantity; `notes` is free. */
  function ParseStockAdjust(raw: StockAdjustInput): (r: Result<StockAdjustData, seq<Issue>>)
    ensures r.Ok? <==>
      && raw.stockID.Num? && raw.stockID.v >= 1.0
      && raw.action in AdjustActionLabels
      && raw.quantityChange.Num? && IsIntegral(raw.quantityChange.v) && raw.quantityChange.v > 0.0
    ensures r.Err? ==> r.error != []
    ensures r.Ok? ==>
      && r.value.stockID == raw.stockID.v
      && ActionLabel(r.value.action) == raw.action && r.value.action != StockService.StockAdded
      && r.value.quantityChange >= 1 && r.value.quantityChange as real == raw.quantityChange.v
      && r.value.notes == raw.notes
  {
    var issues := StockAdjustIssues(raw);
    if issues != [] then Err(issues)
    else Ok(StockAdjustData(raw.stockID.v, AdjustActionOf(raw.action), IntOf(raw.quantityChange), raw.notes))
  }

  /** "Stock Added" is the log's own action for receipts and is never accepted as an
      adjustment. */
  lemma StockAddedRejected(raw: StockAdjustInput)
    requires raw.action == "Stock Added"
    ensures ParseStockAdjust(raw).Err?
    ensures Issue(["action"], InvalidEnum) in ParseStockAdjust(raw).error
  {
    var e := NumberIssues(["stockID"], raw.stockID, false, 1.0, true);
    assert StockAdjustIssues(raw)[|e|] == Issue(["action"], InvalidEnum);
  }

  /** An accepted adjustment moves the stock by a non-zero amount, downwards exactly for the
      three decreasing actions. */
  lemma AcceptedAdjustmentDirection(raw: StockAdjustInput)
    requires ParseStockAdjust(raw).Ok?
    ensures var d := ParseStockAdjust(raw).value;
      && (StockService.SignedChange(d.action, d.quantityChange) < 0 <==> StockService.Decreases(d.action))
      && (StockService.SignedChange(d.action, d.quantityChange) > 0 <==> !StockService.Decreases(d.action))
  {
  }

  // ----- stockAddSchema -----

  datatype StockAddInput = StockAddInput(
    supplier: Option<string>,
    referenceNumber: Option<string>,
    dateReceived: string,
    receivedByEmployeeId: Option<string>,
    notes: Option<string>,
    catalogID: JsNumber,
    officeID: JsNumber,
    quantityToAdd: JsNumber)

  datatype StockAddData = StockAddData(
    supplier: Option<string>,
    referenceNumber: Option<string>,
    dateReceived: string,
    receivedByEmployeeId: Option<int>,
    notes: Option<string>,
    catalogID: real,
    officeID: real,
    quantityToAdd: int)

  function StockAddIssues(raw: StockAddInput): seq<Issue>
  {
    LengthIssues(["dateReceived"], raw.dateReceived, 1, None)
    + NumberIssues(["catalogID"], raw.catalogID, false, 1.0, true)
    + NumberIssues(["officeID"], raw.officeID, false, 1.0, true)
    + NumberIssues(["quantityToAdd"], raw.quantityToAdd, true, 1.0, true)
  }

  /** `stockAddSchema.safeParse`: a date, a catalog item and an office id of at least 1, and a
      whole quantity of at least 1; the employee id goes through the `parseInt` transform. */
  function ParseStockAdd(raw: StockAddInput): (r: Result<StockAddData, seq<Issue>>)
    ensures r.Ok? <==>
      && raw.dateReceived != ""
      && raw.catalogID.Num? && raw.catalogID.v >= 1.0
      && raw.officeID.Num? && raw.officeID.v >= 1.0
      && raw.quantityToAdd.Num? && IsIntegral(raw.quantityToAdd.v) && raw.quantityToAdd.v >= 1.0
    ensures r.Err? ==> r.error != []
    ensures r.Ok? ==>
      && r.value.receivedByEmployeeId == EmptyOrNaNToNull(raw.receivedByEmployeeId)
      && r.value.catalogID == raw.catalogID.v && r.value.officeID == raw.officeID.v
      && r.value.quantityToAdd >= 1 && r.value.quantityToAdd as real == raw.quantityToAdd.v
      && (r.value.supplier, r.value.referenceNumber, r.value.dateReceived, r.value.notes)
         == (raw.supplier, raw.referenceNumber, raw.dateReceived, raw.notes)
  {
    var issues := StockAddIssues(raw);
    if issues != [] then Err(issues)
    else Ok(StockAddData(raw.supplier, raw.referenceNumber, raw.dateReceived,
      EmptyOrNaNToNull(raw.receivedByEmployeeId), raw.notes,
      raw.catalogID.v, raw.officeID.v, IntOf(raw.quantityToAdd)))
  }

  /** The accepted data as the stock page's submit handler takes it, when both ids are whole. */
  function AsStockAddForm(d: StockAddData): (f: Option<StockAddForm>)
    ensures f.Some? <==> IsIntegral(d.catalogID) && IsIntegral(d.officeID)
    ensures f.Some? ==>
      && f.value.catalogID as real == d.catalogID && f.value.officeID as real == d.officeID
      && f.value.quantityToAdd == d.quantityToAdd
      && f.value.receivedByEmployeeId == d.receivedByEmployeeId
      && f.value.dateReceived == d.dateReceived
      && f.value.supplier == d.supplier && f.value.referenceNumber == d.referenceNumber
      && f.value.notes == d.notes
  {
    if IsIntegral(d.catalogID) && IsIntegral(d.officeID) then
      Some(StockAddForm(d.supplier, d.referenceNumber, d.dateReceived, d.receivedByEmployeeId, d.notes,
        d.catalogID.Floor, d.officeID.Floor, d.quantityToAdd))
    else None
  }

  /** Accepted stock data always adds a positive quantity, so the topped-up row grows and a new
      row starts above zero. */
  lemma StockAddPositive(raw: StockAddInput)
    requires ParseStockAdd(raw).Ok?
    ensures var d := ParseStockAdd(raw).value;
      AsStockAddForm(d).Some? ==> AsStockAddForm(d).value.quantityToAdd > 0
  {
  }

  // ----- equipmentReceiveSchema -----

  datatype InstanceInput = InstanceInput(propertyCode: string, serialNumber: Option<string>)

  datatype EquipmentReceiveInput = EquipmentReceiveInput(
    supplier: Option<string>,
    referenceNumber: Option<string>,
    dateReceived: string,
    receivedByEmployeeId: Option<string>,
    notes: Option<string>,
    catalogID: JsNumber,
    currentOfficeId: JsNumber,
    status: string,
    instances: seq<InstanceInput>)

  datatype EquipmentReceiveData = EquipmentReceiveData(
    supplier: Option<string>,
    referenceNumber: Option<string>,
    dateReceived: string,
    receivedByEmployeeId: Option<int>,
    notes: Option<string>,
    catalogID: real,
    currentOfficeId: real,
    status: string,
    instances: seq<InstanceRow>)

  /** `instanceSchema` on the rows from index `from` on, each under its own path. */
  function RowIssues(rows: seq<InstanceInput>, from: nat): (r: seq<Issue>)
    requires from <= |rows|
    ensures r == [] <==> forall i :: from <= i < |rows| ==> rows[i].propertyCode != ""
    decreases |rows| - from
  {
    if from == |rows| then []
    else
      LengthIssues(["instances", NatToString(from), "propertyCode"], rows[from].propertyCode, 1, None)
      + RowIssues(rows, from + 1)
  }

  function Rows(rows: seq<InstanceInput>): (r: seq<InstanceRow>)
    ensures |r| == |rows|
    ensures forall i :: 0 <= i < |rows| ==> r[i] == InstanceRow(rows[i].propertyCode, rows[i].serialNumber)
  {
    seq(|rows|, i requires 0 <= i < |rows| => InstanceRow(rows[i].propertyCode, rows[i].serialNumber))
  }

  function EquipmentReceiveIssues(raw: EquipmentReceiveInput): seq<Issue>
  {
    LengthIssues(["dateReceived"], raw.dateReceived, 1, None)
    + NumberIssues(["catalogID"], raw.catalogID, false, 1.0, true)
    + NumberIssues(["currentOfficeId"], raw.currentOfficeId, false, 1.0, true)
    + LengthIssues(["status"], raw.status, 1, None)
    + (if |raw.instances| < 1 then [Issue(["instances"], TooSmall)] else [])
    + RowIssues(raw.instances, 0)
  }

  /** `equipmentReceiveSchema.safeParse`: a date, catalog item and office ids of at least 1,
      any non-empty status, and at least one row, every row with a property code. */
  function ParseEquipmentReceive(raw: EquipmentReceiveInput): (r: Result<EquipmentReceiveData, seq<Issue>>)
    ensures r.Ok? <==>
      && raw.dateReceived != ""
      && raw.catalogID.Num? && raw.catalogID.v >= 1.0
      && raw.currentOfficeId.Num? && raw.currentOfficeId.v >= 1.0
      && raw.status != ""
      && |raw.instances| >= 1
      && (forall i :: 0 <= i < |raw.instances| ==> raw.instances[i].propertyCode != "")
    ensures r.Err? ==> r.error != []
    ensures r.Ok? ==>
      && r.value.receivedByEmployeeId == EmptyOrNaNToNull(raw.receivedByEmployeeId)
      && r.value.catalogID == raw.catalogID.v && r.value.currentOfficeId == raw.currentOfficeId.v
      && r.value.status == raw.status && r.value.dateReceived == raw.dateReceived
      && (r.value.supplier, r.value.referenceNumber, r.value.notes) == (raw.supplier, raw.referenceNumber, raw.notes)
      && |r.value.instances| == |raw.instances| >= 1
      && (forall i :: 0 <= i < |raw.instances| ==>
            r.value.instances[i].propertyCode == raw.instances[i].propertyCode != ""
            && r.value.instances[i].serialNumber == raw.instances[i].serialNumber)
  {
    var issues := EquipmentReceiveIssues(raw);
    if issues != [] then Err(issues)
    else Ok(EquipmentReceiveData(raw.supplier, raw.referenceNumber, raw.dateReceived,
      EmptyOrNaNToNull(raw.receivedByEmployeeId), raw.notes,
      raw.catalogID.v, raw.currentOfficeId.v, raw.status, Rows(raw.instances)))
  }

  /** The accepted data as the receive page's submit handler takes it, when both ids are whole. */
  function AsReceiveForm(d: EquipmentReceiveData): (f: Option<EquipmentReceiveForm>)
    ensures f.Some? <==> IsIntegral(d.catalogID) && IsIntegral(d.currentOfficeId)
    ensures f.Some? ==>
      && f.value.catalogID as real == d.catalogID && f.value.currentOfficeId as real == d.currentOfficeId
      && f.value.instances == d.instances && f.value.status == d.status
      && f.value.receivedByEmployeeId == d.receivedByEmployeeId
      && f.value.dateReceived == d.dateReceived
      && f.value.supplier == d.supplier && f.value.referenceNumber == d.referenceNumber
      && f.value.notes == d.notes
  {
    if IsIntegral(d.catalogID) && IsIntegral(d.currentOfficeId) then
      Some(EquipmentReceiveForm(d.supplier, d.referenceNumber, d.dateReceived, d.receivedByEmployeeId, d.notes,
        d.catalogID.Floor, d.currentOfficeId.Floor, d.status, d.instances))
    else None
  }

  /** A form with no rows is rejected with an issue on `instances`, so a receipt always
      creates at least one instance. */
  lemma ReceiveNeedsARow(raw: EquipmentReceiveInput)
    requires raw.instances == []
    ensures ParseEquipmentReceive(raw).Err?
    ensures Issue(["instances"], TooSmall) in ParseEquipmentReceive(raw).error
  {
    var issues := EquipmentReceiveIssues(raw);
    var front := LengthIssues(["dateReceived"], raw.dateReceived, 1, None)
      + NumberIssues(["catalogID"], raw.catalogID, false, 1.0, true)
      + NumberIssues(["currentOfficeId"], raw.currentOfficeId, false, 1.0, true)
      + LengthIssues(["status"], raw.status, 1, None);
    assert issues == front + [Issue(["instances"], TooSmall)] + [];
    assert issues[|front|] == Issue(["instances"], TooSmall);
  }

  /** Any non-empty status passes, whether or not it is one of the instance statuses the edit
      schema lists. */
  lemma ReceiveAcceptsAnyStatus(raw: EquipmentReceiveInput, status: string)
    requires ParseEquipmentReceive(raw).Ok? && status != ""
    ensures ParseEquipmentReceive(raw.(status := status)).Ok?
    ensures ParseEquipmentReceive(raw.(status := status)).value.status == status
  {
  }

  // ----- equipmentEditSchema -----

  datatype EquipmentEditInput = EquipmentEditInput(
    status: string,
    currentOfficeId: JsNumber,
    assignedToEmployeeId: Option<string>,
    specificLocation: Option<string>)

  datatype EquipmentEditData = EquipmentEditData(
    status: string,
    currentOfficeId: real,
    assignedToEmployeeId: Option<int>,
    specificLocation: Option<string>)

  const InstanceStatuses: seq<string> := ["In Storage", "Issued", "Transferred", "Returned", "Disposed"]

  function EquipmentEditIssues(raw: EquipmentEditInput): seq<Issue>
  {
    EnumIssues(["status"], raw.status, InstanceStatuses)
    + NumberIssues(["currentOfficeId"], raw.currentOfficeId, false, 1.0, true)
  }

  /** `equipmentEditSchema.safeParse`: one of the five instance statuses and an office id of at
      least 1; the employee id goes through the `parseInt` transform. */
  function ParseEquipmentEdit(raw: EquipmentEditInput): (r: Result<EquipmentEditData, seq<Issue>>)
    ensures r.Ok? <==> raw.status in InstanceStatuses && raw.currentOfficeId.Num? && raw.currentOfficeId.v >= 1.0
    ensures r.Err? ==> r.error != []
    ensures r.Ok? ==> r.value == EquipmentEditData(raw.status, raw.currentOfficeId.v,
      EmptyOrNaNToNull(raw.assignedToEmployeeId), raw.specificLocation)
  {
    var issues := EquipmentEditIssues(raw);
    if issues != [] then Err(issues)
    else Ok(EquipmentEditData(raw.status, raw.currentOfficeId.v, EmptyOrNaNToNull(raw.assignedToEmployeeId),
      raw.specificLocation))
  }

  /** An empty or absent employee selection becomes `null`, and the id a select option submits
      comes back as that id. */
  lemma EditAssignmentTransform(raw: EquipmentEditInput, id: nat)
    requires ParseEquipmentEdit(raw).Ok?
    ensures raw.assignedToEmployeeId.None? || raw.assignedToEmployeeId == Some("") ==>
      ParseEquipmentEdit(raw).value.assignedToEmployeeId.None?
    ensures raw.assignedToEmployeeId == Some(NatToString(id)) ==>
      ParseEquipmentEdit(raw).value.assignedToEmployeeId == Some(id)
  {
    EmptyOrNaNToNullOfId(id);
  }

  // ----- assetSchema -----

  datatype AssetInput = AssetInput(
    propertyCode: string,
    name: string,
    assetType: string,
    description: Option<string>,
    quantity: JsNumber,
    unitOfMeasurement: Option<string>,
    status: string,
    currentOfficeId: JsNumber,
    assignedToEmployeeId: Option<string>,
    specificLocation: Option<string>)

  datatype AssetData = AssetData(
    propertyCode: string,
    name: string,
    assetType: ItemType,
    description: Option<string>,
    quantity: int,
    unitOfMeasurement: Option<string>,
    status: AssetService.AssetStatus,
    currentOfficeId: real,
    assignedToEmployeeId: Option<int>,
    specificLocation: Option<string>)

  const ItemTypeLabels: seq<string> := ["Equipment", "Supply"]
  const AssetStatusLabels: seq<string> := ["In Storage", "Issued", "Disposed", "Returned"]

  function ItemTypeOf(text: string): (t: ItemType)
    requires text in ItemTypeLabels
    ensures AssetService.TypeLabel(t) == text
  {
    if text == "Equipment" then Equipment else Supply
  }

  function AssetStatusOf(text: string): (s: AssetService.AssetStatus)
    requires text in AssetStatusLabels
    ensures AssetService.StatusLabel(s) == text
  {
    if text == "In Storage" then AssetService.InStorage
    else if text == "Issued" then AssetService.Issued
    else if text == "Disposed" then AssetService.Disposed
    else AssetService.Returned
  }

  function AssetIssues(raw: AssetInput): seq<Issue>
  {
    LengthIssues(["propertyCode"], raw.propertyCode, 3, None)
    + LengthIssues(["name"], raw.name, 3, None)
    + EnumIssues(["type"], raw.assetType, ItemTypeLabels)
    + NumberIssues(["quantity"], raw.quantity, true, 1.0, true)
    + EnumIssues(["status"], raw.status, AssetStatusLabels)
    + NumberIssues(["currentOfficeId"], raw.currentOfficeId, false, 1.0, true)
  }

  /** `assetSchema.safeParse`: a property code and a name of at least 3 characters, a known
      type, a whole quantity of at least 1, one of four statuses and an office id of at least 1;
      the employee id goes through the `parseInt` transform. */
  function ParseAsset(raw: AssetInput): (r: Result<AssetData, seq<Issue>>)
    ensures r.Ok? <==>
      && Utf16Length(raw.propertyCode) >= 3 && Utf16Length(raw.name) >= 3
      && raw.assetType in ItemTypeLabels
      && raw.quantity.Num? && IsIntegral(raw.quantity.v) && raw.quantity.v >= 1.0
      && raw.status in AssetStatusLabels
      && raw.currentOfficeId.Num? && raw.currentOfficeId.v >= 1.0
    ensures r.Err? ==> r.error != []
    ensures r.Ok? ==>
      && AssetService.TypeLabel(r.value.assetType) == raw.assetType
      && AssetService.StatusLabel(r.value.status) == raw.status
      && r.value.quantity >= 1 && r.value.quantity as real == raw.quantity.v
      && r.value.currentOfficeId == raw.currentOfficeId.v
      && r.value.assignedToEmployeeId == EmptyOrNaNToNull(raw.assignedToEmployeeId)
      && (r.value.propertyCode, r.value.name, r.value.description, r.value.unitOfMeasurement, r.value.specificLocation)
         == (raw.propertyCode, raw.name, raw.description, raw.unitOfMeasurement, raw.specificLocation)
  {
    var issues := AssetIssues(raw);
    if issues != [] then Err(issues)
    else Ok(AssetData(raw.propertyCode, raw.name, ItemTypeOf(raw.assetType), raw.description,
      IntOf(raw.quantity), raw.unitOfMeasurement, AssetStatusOf(raw.status), raw.currentOfficeId.v,
      EmptyOrNaNToNull(raw.assignedToEmployeeId), raw.specificLocation))
  }

  /** The accepted data as the asset pages' submit handlers take it, when the office id is
      whole. */
  function AsAssetForm(d: AssetData): (f: Option<AssetForm>)
    ensures f.Some? <==> IsIntegral(d.currentOfficeId)
    ensures f.Some? ==>
      && f.value.currentOfficeId as real == d.currentOfficeId
      && f.value.quantity == d.quantity && f.value.assetType == d.assetType && f.value.status == d.status
      && f.value.propertyCode == d.propertyCode && f.value.name == d.name
      && f.value.description == d.description && f.value.unitOfMeasurement == d.unitOfMeasurement
      && f.value.assignedToEmployeeId == d.assignedToEmployeeId
      && f.value.specificLocation == d.specificLocation
  {
    if IsIntegral(d.currentOfficeId) then
      Some(AssetForm(d.propertyCode, d.name, d.assetType, d.description, d.quantity, d.unitOfMeasurement,
        d.status, d.currentOfficeId.Floor, d.assignedToEmployeeId, d.specificLocation))
    else None
  }

  /** 'Transferred' is an instance status the edit schema accepts but an asset status the asset
      schema rejects. */
  lemma TransferredOnlyForInstances(asset: AssetInput, edit: EquipmentEditInput)
    requires asset.status == "Transferred" && edit.status == "Transferred"
    requires edit.currentOfficeId == Num(1.0)
    ensures ParseAsset(asset).Err?
    ensures ParseEquipmentEdit(edit).Ok?
  {
  }

  /** Every stored asset built from accepted data has a quantity of at least 1, whatever its
      type, since the payload rule only lowers an Equipment quantity to 1. */
  lemma AcceptedAssetQuantity(raw: AssetInput, id: Option<int>)
    requires ParseAsset(raw).Ok? && AsAssetForm(ParseAsset(raw).value).Some?
    ensures AssetPayload(id, AsAssetForm(ParseAsset(raw).value).value).quantity >= 1
  {
  }

  // ----- officeSchema -----

  datatype OfficeInput = OfficeInput(officeName: string, address: Option<string>)

  function OfficeIssues(raw: OfficeInput): seq<Issue>
  {
    LengthIssues(["officeName"], raw.officeName, 3, Some(100))
    + (if raw.address.Some? then LengthIssues(["address"], raw.address.value, 0, Some(255)) else [])
  }

  /** `officeSchema.safeParse`: a name of 3 to 100 characters and an address that is absent,
      `null` or at most 255 characters. The result is an office without an id. */
  function ParseOffice(raw: OfficeInput): (r: Result<Office, seq<Issue>>)
    ensures r.Ok? <==>
      && 3 <= Utf16Length(raw.officeName) <= 100
      && (raw.address.Some? ==> Utf16Length(raw.address.value) <= 255)
    ensures r.Err? ==> r.error != []
    ensures r.Ok? ==> r.value == Office(None, raw.officeName, raw.address)
  {
    var issues := OfficeIssues(raw);
    if issues != [] then Err(issues) else Ok(Office(None, raw.officeName, raw.address))
  }

  // ----- assetCatalogSchema -----

  datatype CatalogInput = CatalogInput(
    name: string,
    itemType: string,
    unitOfMeasurement: Option<string>,
    sku: Option<string>,
    description: Option<string>)

  const DefaultUnit: string := "pcs"

  /** `.default('pcs')`: an absent unit is replaced before the inner rule runs. */
  function UnitOrDefault(u: Option<string>): string
  {
    if u.None? then DefaultUnit else u.value
  }

  function CatalogIssues(raw: CatalogInput): seq<Issue>
  {
    LengthIssues(["name"], raw.name, 3, None)
    + EnumIssues(["type"], raw.itemType, ItemTypeLabels)
    + LengthIssues(["unitOfMeasurement"], UnitOrDefault(raw.unitOfMeasurement), 1, None)
  }

  /** `assetCatalogSchema.safeParse`: a name of at least 3 characters, a known type, and a
      non-empty unit that defaults to 'pcs'. The result is a catalog item without an id. */
  function ParseCatalog(raw: CatalogInput): (r: Result<CatalogItem, seq<Issue>>)
    ensures r.Ok? <==>
      && Utf16Length(raw.name) >= 3
      && raw.itemType in ItemTypeLabels
      && raw.unitOfMeasurement != Some("")
    ensures r.Err? ==> r.error != []
    ensures r.Ok? ==>
      && r.value.catalogID.None?
      && AssetService.TypeLabel(r.value.itemType) == raw.itemType
      && r.value.unitOfMeasurement == (if raw.unitOfMeasurement.None? then "pcs" else raw.unitOfMeasurement.value)
      && r.value.unitOfMeasurement != ""
      && (r.value.name, r.value.sku, r.value.description) == (raw.name, raw.sku, raw.description)
  {
    var issues := CatalogIssues(raw);
    if issues != [] then Err(issues)
    else Ok(CatalogItem(None, raw.name, ItemTypeOf(raw.itemType), raw.description,
      UnitOrDefault(raw.unitOfMeasurement), raw.sku))
  }

  // ----- employeeSchema -----

  datatype EmployeeInput = EmployeeInput(firstName: string, lastName: string, email: string, currentOfficeId: Option<JsNumber>)

  datatype EmployeeData = EmployeeData(firstName: string, lastName: string, email: string, currentOfficeId: Option<real>)

  function EmployeeIssues(raw: EmployeeInput, isEmail: string -> bool): seq<Issue>
  {
    LengthIssues(["firstName"], raw.firstName, 2, Some(100))
    + LengthIssues(["lastName"], raw.lastName, 2, Some(100))
    + (if isEmail(raw.email) then [] else [Issue(["email"], InvalidEmail)])
    + (if raw.currentOfficeId == Some(NaN) then [Issue(["currentOfficeId"], InvalidType)] else [])
  }

  /** `employeeSchema.safeParse`, with zod's e-mail check given as `isEmail`: names of 2 to 100
      characters, an e-mail address, and an office id that is `null` or any number. */
  function ParseEmployee(raw: EmployeeInput, isEmail: string -> bool): (r: Result<EmployeeData, seq<Issue>>)
    ensures r.Ok? <==>
      && 2 <= Utf16Length(raw.firstName) <= 100
      && 2 <= Utf16Length(raw.lastName) <= 100
      && isEmail(raw.email)
      && raw.currentOfficeId != Some(NaN)
    ensures r.Err? ==> r.error != []
    ensures r.Ok? ==>
      && (r.value.firstName, r.value.lastName, r.value.email) == (raw.firstName, raw.lastName, raw.email)
      && (raw.currentOfficeId.None? <==> r.value.currentOfficeId.None?)
      && (raw.currentOfficeId.Some? ==> r.value.currentOfficeId == Some(raw.currentOfficeId.value.v))
  {
    var issues := EmployeeIssues(raw, isEmail);
    if issues != [] then Err(issues)
    else Ok(EmployeeData(raw.firstName, raw.lastName, raw.email,
      match raw.currentOfficeId case None => None case Some(x) => Some(x.v)))
  }

  // ----- voucherEditSchema -----

  /** The editable voucher fields; an absent optional field is a key the form did not send. */
  datatype VoucherEditInput = VoucherEditInput(
    receivedByEmployeeId: Option<string>,
    supplier: Option<string>,
    referenceNumber: Option<string>,
    notes: Option<string>)

  datatype VoucherEditData = VoucherEditData(
    receivedByEmployeeId: Option<int>,
    supplier: Option<string>,
    referenceNumber: Option<string>,
    notes: Option<string>)

  /** `voucherEditSchema.safeParse`: nothing is rejected; the employee id goes through the
      `parseInt` transform. */
  function ParseVoucherEdit(raw: VoucherEditInput): (r: Result<VoucherEditData, seq<Issue>>)
    ensures r.Ok?
    ensures r.value.receivedByEmployeeId == EmptyOrNaNToNull(raw.receivedByEmployeeId)
    ensures (r.value.supplier, r.value.referenceNumber, r.value.notes) == (raw.supplier, raw.referenceNumber, raw.notes)
  {
    Ok(VoucherEditData(EmptyOrNaNToNull(raw.receivedByEmployeeId), raw.supplier, raw.referenceNumber, raw.notes))
  }

  /** A spread `{ ...old, key: value }` where the key may be missing. */
  function Override<T>(loaded: Option<T>, sent: Option<T>): Option<T>
  {
    if sent.Some? then sent else loaded
  }

  /** `{ ...voucher, ...data }` of the voucher edit page: the fields the data carries replace
      the loaded ones; the transformed employee id is always carried. */
  function ApplyVoucherEdit(v: ReceivingVoucher, d: VoucherEditData): (r: ReceivingVoucher)
    ensures r.voucherID == v.voucherID && r.dateReceived == v.dateReceived
    ensures r.receivedByEmployeeId == d.receivedByEmployeeId
    ensures d.supplier.Some? ==> r.supplier == d.supplier
    ensures d.supplier.None? ==> r.supplier == v.supplier
    ensures d.referenceNumber.Some? ==> r.referenceNumber == d.referenceNumber
    ensures d.referenceNumber.None? ==> r.referenceNumber == v.referenceNumber
    ensures d.notes.Some? ==> r.notes == d.notes
    ensures d.notes.None? ==> r.notes == v.notes
  {
    v.(receivedByEmployeeId := d.receivedByEmployeeId,
       supplier := Override(v.supplier, d.supplier),
       referenceNumber := Override(v.referenceNumber, d.referenceNumber),
       notes := Override(v.notes, d.notes))
  }

  /** An edit never touches the receipt date or the id, and clearing the employee selection
      clears the voucher's employee. */
  lemma VoucherEditKeepsDate(v: ReceivingVoucher, raw: VoucherEditInput)
    ensures var r := ApplyVoucherEdit(v, ParseVoucherEdit(raw).value);
      && r.dateReceived == v.dateReceived && r.voucherID == v.voucherID
      && (raw.receivedByEmployeeId.None? || raw.receivedByEmployeeId == Some("") ==> r.receivedByEmployeeId.None?)
  {
  }
}
