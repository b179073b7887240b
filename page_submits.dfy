/** The write orchestrations of the form pages' submit handlers: receiving a batch of
    equipment under one voucher, adding stock after recording its voucher, and the payload
    rule shared by asset creation and editing. Each takes the validated form data. */
module PageSubmits {
  import opened Common
  import opened RecordStore
  import opened CatalogService
  import opened VoucherService
  import opened AssetService
  import opened AssetTransactionService
  import opened EquipmentService
  import opened StockService

  // ----- EquipmentReceivePage -----

  /** One row of the `instances` field array. */
  datatype InstanceRow = InstanceRow(propertyCode: string, serialNumber: Option<string>)

  datatype EquipmentReceiveForm = EquipmentReceiveForm(
    supplier: Option<string>,
    referenceNumber: Option<string>,
    dateReceived: string,
    receivedByEmployeeId: Option<int>,
    notes: Option<string>,
    catalogID: int,
    currentOfficeId: int,
    status: string,
    instances: seq<InstanceRow>)

  /** The voucher both receiving pages create from their form's voucher fields. */
  function ReceiptVoucher(supplier: Option<string>, referenceNumber: Option<string>, dateReceived: string,
                          receivedByEmployeeId: Option<int>, notes: Option<string>): ReceivingVoucher
  {
    ReceivingVoucher(None, supplier, referenceNumber, dateReceived, receivedByEmployeeId, notes)
  }

  /** The instance the receive page creates for one row under the new voucher. */
  function ReceivedInstance(form: EquipmentReceiveForm, row: InstanceRow, voucherID: int): AssetInstance
  {
    AssetInstance(None, form.catalogID, row.propertyCode, row.serialNumber, form.status, form.currentOfficeId,
      None, Some("Storage"), Some(voucherID))
  }

  /** The rows' outcomes, the instance store and the transaction log after the
      `addInstance` calls of the receive page for `rows`, one after the other. */
  function ReceiveAll(instSt: StoreState<AssetInstance>, logSt: StoreState<AssetTransaction>,
                      form: EquipmentReceiveForm, rows: seq<InstanceRow>, vk: int, now: int)
    : (out: (StoreState<AssetInstance>, StoreState<AssetTransaction>, seq<Result<AssetInstance, StoreError>>))
    requires WellFormed(instSt, InstancePath()) && WellFormed(logSt, TransactionPath())
    ensures WellFormed(out.0, InstancePath()) && WellFormed(out.1, TransactionPath())
    ensures |out.2| == |rows|
    decreases |rows|
  {
    if rows == [] then (instSt, logSt, [])
    else
      var prev := ReceiveAll(instSt, logSt, form, rows[..|rows| - 1], vk, now);
      var step := AddInstanceTo(prev.0, prev.1, ReceivedInstance(form, rows[|rows| - 1], vk), now);
      (step.0, step.1, prev.2 + [step.2])
  }

  /** Number of rows whose instance was created and logged. */
  function OkCount(outcomes: seq<Result<AssetInstance, StoreError>>): nat
  {
    if outcomes == [] then 0
    else OkCount(outcomes[..|outcomes| - 1]) + (if outcomes[|outcomes| - 1].Ok? then 1 else 0)
  }

  /** The transaction logged for a created instance; it carries the instance's own id. */
  function LoggedFor(inst: AssetInstance, now: int, t: int): AssetTransaction
    requires inst.instanceID.Some?
  {
    CreatedTransaction(inst, inst.instanceID.value, now).(transactionID := Some(t))
  }

  /** Receiving never changes or removes a stored instance or transaction. */
  lemma {:induction false} ReceiveAllKeeps(instSt: StoreState<AssetInstance>, logSt: StoreState<AssetTransaction>,
                                           form: EquipmentReceiveForm, rows: seq<InstanceRow>, vk: int, now: int)
    requires WellFormed(instSt, InstancePath()) && WellFormed(logSt, TransactionPath())
    ensures var out := ReceiveAll(instSt, logSt, form, rows, vk, now);
      && instSt.current <= out.0.current && logSt.current <= out.1.current
      && (forall k :: k in instSt.records ==> k in out.0.records && out.0.records[k] == instSt.records[k])
      && (forall t :: t in logSt.records ==> t in out.1.records && out.1.records[t] == logSt.records[t])
  {
    if rows != [] {
      var n := |rows| - 1;
      ReceiveAllKeeps(instSt, logSt, form, rows[..n], vk, now);
      ReceiveAllStep(instSt, logSt, form, rows, vk, now);
    }
  }

  /** Every new instance record sits under a key handed out during the receipt and is one of
      the rows' instances. */
  lemma {:induction false} ReceiveAllNewKeys(instSt: StoreState<AssetInstance>, logSt: StoreState<AssetTransaction>,
                                             form: EquipmentReceiveForm, rows: seq<InstanceRow>, vk: int, now: int)
    requires WellFormed(instSt, InstancePath()) && WellFormed(logSt, TransactionPath())
    ensures var out := ReceiveAll(instSt, logSt, form, rows, vk, now);
      forall k :: k in out.0.records && k !in instSt.records ==>
        && instSt.current <= k < out.0.current
        && exists j :: 0 <= j < |rows| && out.0.records[k] == ReceivedInstance(form, rows[j], vk).(instanceID := Some(k))
  {
    if rows != [] {
      var n := |rows| - 1;
      ReceiveAllNewKeys(instSt, logSt, form, rows[..n], vk, now);
      ReceiveAllKeeps(instSt, logSt, form, rows[..n], vk, now);
      ReceiveAllStep(instSt, logSt, form, rows, vk, now);
      var prev := ReceiveAll(instSt, logSt, form, rows[..n], vk, now);
      var inst := ReceivedInstance(form, rows[n], vk);
      var step := AddInstanceTo(prev.0, prev.1, inst, now);
      var out := ReceiveAll(instSt, logSt, form, rows, vk, now);
      assert out.0 == step.0;
      forall k | k in out.0.records && k !in instSt.records
        ensures instSt.current <= k < out.0.current
        ensures exists j :: 0 <= j < |rows| && out.0.records[k] == ReceivedInstance(form, rows[j], vk).(instanceID := Some(k))
      {
        if k in prev.0.records {
          assert out.0.records[k] == prev.0.records[k];
          var j :| 0 <= j < n && prev.0.records[k] == ReceivedInstance(form, rows[..n][j], vk).(instanceID := Some(k));
          assert rows[..n][j] == rows[j];
        } else {
          assert prev.0.current <= MaxGeneratedKey && k == prev.0.current;
          assert out.0.records[k] == inst.(instanceID := Some(k));
        }
      }
    }
  }

  /** One more row: the receipt of `rows` is the receipt of all but the last row followed by
      one `addInstance` of the last. */
  lemma ReceiveAllStep(instSt: StoreState<AssetInstance>, logSt: StoreState<AssetTransaction>,
                       form: EquipmentReceiveForm, rows: seq<InstanceRow>, vk: int, now: int)
    requires WellFormed(instSt, InstancePath()) && WellFormed(logSt, TransactionPath())
    requires rows != []
    ensures var prev := ReceiveAll(instSt, logSt, form, rows[..|rows| - 1], vk, now);
      var step := AddInstanceTo(prev.0, prev.1, ReceivedInstance(form, rows[|rows| - 1], vk), now);
      ReceiveAll(instSt, logSt, form, rows, vk, now) == (step.0, step.1, prev.2 + [step.2])
  {
  }

  /** Each row's outcome: a created instance is the row's instance under a key handed out
      during the receipt, stored as returned. */
  lemma {:induction false} ReceiveAllCreated(instSt: StoreState<AssetInstance>, logSt: StoreState<AssetTransaction>,
                                             form: EquipmentReceiveForm, rows: seq<InstanceRow>, vk: int, now: int)
    requires WellFormed(instSt, InstancePath()) && WellFormed(logSt, TransactionPath())
    ensures var out := ReceiveAll(instSt, logSt, form, rows, vk, now);
      forall i :: 0 <= i < |rows| && out.2[i].Ok? ==>
        && out.2[i].value.instanceID.Some?
        && instSt.current <= out.2[i].value.instanceID.value < out.0.current
        && out.2[i].value == ReceivedInstance(form, rows[i], vk).(instanceID := out.2[i].value.instanceID)
        && out.2[i].value.instanceID.value in out.0.records
        && out.0.records[out.2[i].value.instanceID.value] == out.2[i].value
  {
    if rows != [] {
      var n := |rows| - 1;
      ReceiveAllCreated(instSt, logSt, form, rows[..n], vk, now);
      ReceiveAllKeeps(instSt, logSt, form, rows[..n], vk, now);
      ReceiveAllStep(instSt, logSt, form, rows, vk, now);
      var prev := ReceiveAll(instSt, logSt, form, rows[..n], vk, now);
      var step := AddInstanceTo(prev.0, prev.1, ReceivedInstance(form, rows[n], vk), now);
      var out := ReceiveAll(instSt, logSt, form, rows, vk, now);
      forall i | 0 <= i < |rows| && out.2[i].Ok?
        ensures out.2[i].value.instanceID.Some?
        ensures instSt.current <= out.2[i].value.instanceID.value < out.0.current
        ensures out.2[i].value == ReceivedInstance(form, rows[i], vk).(instanceID := out.2[i].value.instanceID)
        ensures out.2[i].value.instanceID.value in out.0.records
        ensures out.0.records[out.2[i].value.instanceID.value] == out.2[i].value
      {
        if i < n {
          assert out.2[i] == prev.2[i];
          assert rows[..n][i] == rows[i];
          var k := prev.2[i].value.instanceID.value;
          assert k in prev.0.records;
        } else {
          assert out.2[i] == step.2;
        }
      }
    }
  }

  /** Every created id was handed out during the receipt. */
  lemma ReceiveAllIdsBelow(instSt: StoreState<AssetInstance>, logSt: StoreState<AssetTransaction>,
                           form: EquipmentReceiveForm, rows: seq<InstanceRow>, vk: int, now: int)
    requires WellFormed(instSt, InstancePath()) && WellFormed(logSt, TransactionPath())
    ensures var out := ReceiveAll(instSt, logSt, form, rows, vk, now);
      forall i :: 0 <= i < |rows| && out.2[i].Ok? ==>
        out.2[i].value.instanceID.Some? && out.2[i].value.instanceID.value < out.0.current
  {
    ReceiveAllCreated(instSt, logSt, form, rows, vk, now);
  }

  /** The created ids of `outcomes` increase with their position. */
  predicate IdsIncreasing(outcomes: seq<Result<AssetInstance, StoreError>>)
  {
    forall i, j :: 0 <= i < j < |outcomes| && outcomes[i].Ok? && outcomes[j].Ok? ==>
      && outcomes[i].value.instanceID.Some? && outcomes[j].value.instanceID.Some?
      && outcomes[i].value.instanceID.value < outcomes[j].value.instanceID.value
  }

  /** An outcome whose id is above every earlier one keeps the ids increasing. */
  lemma IdsIncreasingAppend(outcomes: seq<Result<AssetInstance, StoreError>>, o: Result<AssetInstance, StoreError>, bound: int)
    requires IdsIncreasing(outcomes)
    requires forall i :: 0 <= i < |outcomes| && outcomes[i].Ok? ==>
      outcomes[i].value.instanceID.Some? && outcomes[i].value.instanceID.value < bound
    requires o.Ok? ==> o.value.instanceID == Some(bound)
    ensures IdsIncreasing(outcomes + [o])
  {
    var r := outcomes + [o];
    forall i, j | 0 <= i < j < |r| && r[i].Ok? && r[j].Ok?
      ensures r[i].value.instanceID.Some? && r[j].value.instanceID.Some?
      ensures r[i].value.instanceID.value < r[j].value.instanceID.value
    {
      assert r[i] == outcomes[i];
      if j < |outcomes| {
        assert r[j] == outcomes[j];
      }
    }
  }

  /** Created ids increase with the row order. */
  lemma {:induction false} ReceiveAllIncreasing(instSt: StoreState<AssetInstance>, logSt: StoreState<AssetTransaction>,
                                                form: EquipmentReceiveForm, rows: seq<InstanceRow>, vk: int, now: int)
    requires WellFormed(instSt, InstancePath()) && WellFormed(logSt, TransactionPath())
    ensures IdsIncreasing(ReceiveAll(instSt, logSt, form, rows, vk, now).2)
  {
    if rows != [] {
      var n := |rows| - 1;
      ReceiveAllIncreasing(instSt, logSt, form, rows[..n], vk, now);
      ReceiveAllIdsBelow(instSt, logSt, form, rows[..n], vk, now);
      ReceiveAllStep(instSt, logSt, form, rows, vk, now);
      var prev := ReceiveAll(instSt, logSt, form, rows[..n], vk, now);
      var step := AddInstanceTo(prev.0, prev.1, ReceivedInstance(form, rows[n], vk), now);
      IdsIncreasingAppend(prev.2, step.2, prev.0.current);
    }
  }

  /** The log grows by exactly one transaction per created instance. */
  lemma {:induction false} ReceiveAllLogCount(instSt: StoreState<AssetInstance>, logSt: StoreState<AssetTransaction>,
                                              form: EquipmentReceiveForm, rows: seq<InstanceRow>, vk: int, now: int)
    requires WellFormed(instSt, InstancePath()) && WellFormed(logSt, TransactionPath())
    ensures var out := ReceiveAll(instSt, logSt, form, rows, vk, now);
      |out.1.records| == |logSt.records| + OkCount(out.2)
  {
    if rows != [] {
      var n := |rows| - 1;
      ReceiveAllLogCount(instSt, logSt, form, rows[..n], vk, now);
      ReceiveAllStep(instSt, logSt, form, rows, vk, now);
      var prev := ReceiveAll(instSt, logSt, form, rows[..n], vk, now);
      var step := AddInstanceTo(prev.0, prev.1, ReceivedInstance(form, rows[n], vk), now);
      var out := ReceiveAll(instSt, logSt, form, rows, vk, now);
      assert out.2 == prev.2 + [step.2];
      assert out.2[..n] == prev.2;
      if step.2.Ok? {
        assert prev.1.current !in prev.1.records;
      }
    }
  }

  /** Every new transaction records the creation of one created instance. */
  lemma {:induction false} ReceiveAllLogged(instSt: StoreState<AssetInstance>, logSt: StoreState<AssetTransaction>,
                                            form: EquipmentReceiveForm, rows: seq<InstanceRow>, vk: int, now: int)
    requires WellFormed(instSt, InstancePath()) && WellFormed(logSt, TransactionPath())
    ensures var out := ReceiveAll(instSt, logSt, form, rows, vk, now);
      forall t :: t in out.1.records && t !in logSt.records ==>
        exists i :: (0 <= i < |rows| && out.2[i].Ok? && out.2[i].value.instanceID.Some?
                     && out.1.records[t] == LoggedFor(out.2[i].value, now, t))
  {
    if rows != [] {
      var n := |rows| - 1;
      ReceiveAllLogged(instSt, logSt, form, rows[..n], vk, now);
      ReceiveAllStep(instSt, logSt, form, rows, vk, now);
      var prev := ReceiveAll(instSt, logSt, form, rows[..n], vk, now);
      var inst := ReceivedInstance(form, rows[n], vk);
      var step := AddInstanceTo(prev.0, prev.1, inst, now);
      var out := ReceiveAll(instSt, logSt, form, rows, vk, now);
      assert out.2 == prev.2 + [step.2];
      forall t | t in out.1.records && t !in logSt.records
        ensures exists i :: (0 <= i < |rows| && out.2[i].Ok? && out.2[i].value.instanceID.Some?
                             && out.1.records[t] == LoggedFor(out.2[i].value, now, t))
      {
        if step.2.Ok? && t == prev.1.current {
          assert step.2.value == inst.(instanceID := Some(prev.0.current));
          assert out.1.records[t] == LoggedFor(step.2.value, now, t);
          assert out.2[n] == step.2;
        } else {
          assert t in prev.1.records && out.1.records[t] == prev.1.records[t];
          var i :| 0 <= i < n && prev.2[i].Ok? && prev.2[i].value.instanceID.Some?
            && prev.1.records[t] == LoggedFor(prev.2[i].value, now, t);
          assert out.2[i] == prev.2[i];
        }
      }
    }
  }

  /** Every created instance has its creation transaction among the new ones. */
  lemma {:induction false} ReceiveAllLogsEach(instSt: StoreState<AssetInstance>, logSt: StoreState<AssetTransaction>,
                                              form: EquipmentReceiveForm, rows: seq<InstanceRow>, vk: int, now: int)
    requires WellFormed(instSt, InstancePath()) && WellFormed(logSt, TransactionPath())
    ensures var out := ReceiveAll(instSt, logSt, form, rows, vk, now);
      forall i :: 0 <= i < |rows| && out.2[i].Ok? ==>
        && out.2[i].value.instanceID.Some?
        && exists t :: t in out.1.records && t !in logSt.records && out.1.records[t] == LoggedFor(out.2[i].value, now, t)
  {
    if rows != [] {
      var n := |rows| - 1;
      ReceiveAllLogsEach(instSt, logSt, form, rows[..n], vk, now);
      ReceiveAllKeeps(instSt, logSt, form, rows[..n], vk, now);
      ReceiveAllStep(instSt, logSt, form, rows, vk, now);
      var prev := ReceiveAll(instSt, logSt, form, rows[..n], vk, now);
      var inst := ReceivedInstance(form, rows[n], vk);
      var step := AddInstanceTo(prev.0, prev.1, inst, now);
      var out := ReceiveAll(instSt, logSt, form, rows, vk, now);
      assert out.2 == prev.2 + [step.2];
      forall i | 0 <= i < |rows| && out.2[i].Ok?
        ensures out.2[i].value.instanceID.Some?
        ensures exists t :: t in out.1.records && t !in logSt.records && out.1.records[t] == LoggedFor(out.2[i].value, now, t)
      {
        if i < n {
          assert out.2[i] == prev.2[i];
          var t :| t in prev.1.records && t !in logSt.records && prev.1.records[t] == LoggedFor(prev.2[i].value, now, t);
          assert out.1.records[t] == prev.1.records[t];
        } else {
          assert out.2[i] == step.2;
          var t := prev.1.current;
          assert step.2.value == inst.(instanceID := Some(prev.0.current));
          assert out.1.records[t] == LoggedFor(step.2.value, now, t);
          assert t !in logSt.records;
        }
      }
    }
  }

  /** An instance stored without a successful outcome (its log write failed) has no new
      transaction: the log records only the creations reported as successful. */
  lemma UnloggedReceipt(instSt: StoreState<AssetInstance>, logSt: StoreState<AssetTransaction>,
                        form: EquipmentReceiveForm, rows: seq<InstanceRow>, vk: int, now: int, k: int)
    requires WellFormed(instSt, InstancePath()) && WellFormed(logSt, TransactionPath())
    requires var out := ReceiveAll(instSt, logSt, form, rows, vk, now);
      forall i :: 0 <= i < |rows| && out.2[i].Ok? ==> out.2[i].value.instanceID != Some(k)
    ensures var out := ReceiveAll(instSt, logSt, form, rows, vk, now);
      forall t :: t in out.1.records && t !in logSt.records ==> out.1.records[t].instanceID != k
  {
    ReceiveAllLogged(instSt, logSt, form, rows, vk, now);
  }

  /** `onSubmit` of the receive page: one voucher, then one `addInstance` per row. All
      instance writes are started, so a failed one does not stop the others; `created` holds
      each row's outcome. A failed voucher write rejects before any instance is written. */
  method ReceiveEquipment(vouchers: ObjectStore<ReceivingVoucher>, instances: ObjectStore<AssetInstance>,
                          log: ObjectStore<AssetTransaction>, form: EquipmentReceiveForm, now: int)
    returns (voucher: Result<ReceivingVoucher, StoreError>, created: seq<Result<AssetInstance, StoreError>>)
    requires IsVoucherStore(vouchers) && IsInstanceStore(instances) && IsTransactionStore(log)
    modifies vouchers, instances, log
    ensures IsVoucherStore(vouchers) && IsInstanceStore(instances) && IsTransactionStore(log)
    ensures voucher.Err? ==>
      && created == []
      && vouchers.State() == old(vouchers.State())
      && instances.State() == old(instances.State()) && log.State() == old(log.State())
    ensures voucher.Ok? ==> var vk := old(vouchers.current);
      && voucher.value == ReceiptVoucher(form.supplier, form.referenceNumber, form.dateReceived,
                                         form.receivedByEmployeeId, form.notes).(voucherID := Some(vk))
      && vouchers.records == old(vouchers.records)[vk := voucher.value]
      && (instances.State(), log.State(), created)
         == ReceiveAll(old(instances.State()), old(log.State()), form, form.instances, vk, now)
    ensures voucher.Ok? ==> Received(old(instances.State()), old(log.State()), instances.State(), log.State(),
                                     form, old(vouchers.current), now, created)
  {
    voucher := AddVoucher(vouchers, ReceiptVoucher(form.supplier, form.referenceNumber, form.dateReceived,
                                                   form.receivedByEmployeeId, form.notes));
    created := [];
    if voucher.Err? {
      return;
    }
    created := ReceiveRows(instances, log, form, voucher.value.voucherID.value, now);
  }

  /** No stored instance or transaction changes or disappears, and every new instance is a
      row's instance under a key handed out during the receipt. */
  ghost predicate ReceiptKeeps(instSt: StoreState<AssetInstance>, logSt: StoreState<AssetTransaction>,
                               instSt': StoreState<AssetInstance>, logSt': StoreState<AssetTransaction>,
                               form: EquipmentReceiveForm, vk: int)
  {
    && instSt.current <= instSt'.current && logSt.current <= logSt'.current
    && (forall k :: k in instSt.records ==> k in instSt'.records && instSt'.records[k] == instSt.records[k])
    && (forall t :: t in logSt.records ==> t in logSt'.records && logSt'.records[t] == logSt.records[t])
    && (forall k :: k in instSt'.records && k !in instSt.records ==>
          && instSt.current <= k < instSt'.current
          && exists j :: 0 <= j < |form.instances|
               && instSt'.records[k] == ReceivedInstance(form, form.instances[j], vk).(instanceID := Some(k)))
  }

  /** One outcome per row; a created instance is its row's instance under a key handed out
      during the receipt, stored as returned, and created ids increase with the row order. */
  ghost predicate ReceiptCreates(instSt: StoreState<AssetInstance>, instSt': StoreState<AssetInstance>,
                                 form: EquipmentReceiveForm, vk: int, created: seq<Result<AssetInstance, StoreError>>)
  {
    && |created| == |form.instances|
    && (forall i :: 0 <= i < |form.instances| && created[i].Ok? ==>
          && created[i].value.instanceID.Some?
          && instSt.current <= created[i].value.instanceID.value < instSt'.current
          && created[i].value == ReceivedInstance(form, form.instances[i], vk).(instanceID := created[i].value.instanceID)
          && created[i].value.instanceID.value in instSt'.records
          && instSt'.records[created[i].value.instanceID.value] == created[i].value)
    && IdsIncreasing(created)
  }

  /** The log grows by exactly one creation transaction per created instance. */
  ghost predicate ReceiptLogs(logSt: StoreState<AssetTransaction>, logSt': StoreState<AssetTransaction>,
                              form: EquipmentReceiveForm, now: int, created: seq<Result<AssetInstance, StoreError>>)
    requires |created| == |form.instances|
  {
    && |logSt'.records| == |logSt.records| + OkCount(created)
    && (forall t :: t in logSt'.records && t !in logSt.records ==>
          exists i :: (0 <= i < |form.instances| && created[i].Ok? && created[i].value.instanceID.Some?
                       && logSt'.records[t] == LoggedFor(created[i].value, now, t)))
    && (forall i :: 0 <= i < |form.instances| && created[i].Ok? ==>
          && created[i].value.instanceID.Some?
          && exists t :: t in logSt'.records && t !in logSt.records && logSt'.records[t] == LoggedFor(created[i].value, now, t))
  }

  /** What a receipt under voucher `vk` promises about the two stores, from `instSt` and
      `logSt` before to `instSt'` and `logSt'` after. */
  ghost predicate Received(instSt: StoreState<AssetInstance>, logSt: StoreState<AssetTransaction>,
                           instSt': StoreState<AssetInstance>, logSt': StoreState<AssetTransaction>,
                           form: EquipmentReceiveForm, vk: int, now: int, created: seq<Result<AssetInstance, StoreError>>)
  {
    && ReceiptKeeps(instSt, logSt, instSt', logSt', form, vk)
    && ReceiptCreates(instSt, instSt', form, vk, created)
    && ReceiptLogs(logSt, logSt', form, now, created)
  }

  /** Every receipt keeps the promises of `Received`. */
  lemma ReceiveAllReceived(instSt: StoreState<AssetInstance>, logSt: StoreState<AssetTransaction>,
                           form: EquipmentReceiveForm, vk: int, now: int)
    requires WellFormed(instSt, InstancePath()) && WellFormed(logSt, TransactionPath())
    ensures var out := ReceiveAll(instSt, logSt, form, form.instances, vk, now);
      Received(instSt, logSt, out.0, out.1, form, vk, now, out.2)
  {
    ReceiveAllReceiptKeeps(instSt, logSt, form, vk, now);
    ReceiveAllReceiptCreates(instSt, logSt, form, vk, now);
    ReceiveAllReceiptLogs(instSt, logSt, form, vk, now);
  }

  /** The `ReceiptKeeps` part of `Received`. */
  lemma ReceiveAllReceiptKeeps(instSt: StoreState<AssetInstance>, logSt: StoreState<AssetTransaction>,
                               form: EquipmentReceiveForm, vk: int, now: int)
    requires WellFormed(instSt, InstancePath()) && WellFormed(logSt, TransactionPath())
    ensures var out := ReceiveAll(instSt, logSt, form, form.instances, vk, now);
      ReceiptKeeps(instSt, logSt, out.0, out.1, form, vk)
  {
    ReceiveAllKeeps(instSt, logSt, form, form.instances, vk, now);
    ReceiveAllNewKeys(instSt, logSt, form, form.instances, vk, now);
  }

  /** The `ReceiptCreates` part of `Received`. */
  lemma ReceiveAllReceiptCreates(instSt: StoreState<AssetInstance>, logSt: StoreState<AssetTransaction>,
                                 form: EquipmentReceiveForm, vk: int, now: int)
    requires WellFormed(instSt, InstancePath()) && WellFormed(logSt, TransactionPath())
    ensures var out := ReceiveAll(instSt, logSt, form, form.instances, vk, now);
      ReceiptCreates(instSt, out.0, form, vk, out.2)
  {
    ReceiveAllCreated(instSt, logSt, form, form.instances, vk, now);
    ReceiveAllIncreasing(instSt, logSt, form, form.instances, vk, now);
  }

  /** The `ReceiptLogs` part of `Received`. */
  lemma ReceiveAllReceiptLogs(instSt: StoreState<AssetInstance>, logSt: StoreState<AssetTransaction>,
                              form: EquipmentReceiveForm, vk: int, now: int)
    requires WellFormed(instSt, InstancePath()) && WellFormed(logSt, TransactionPath())
    ensures var out := ReceiveAll(instSt, logSt, form, form.instances, vk, now);
      |out.2| == |form.instances| && ReceiptLogs(logSt, out.1, form, now, out.2)
  {
    ReceiveAllLogCount(instSt, logSt, form, form.instances, vk, now);
    ReceiveAllLogged(instSt, logSt, form, form.instances, vk, now);
    ReceiveAllLogsEach(instSt, logSt, form, form.instances, vk, now);
  }

  /** The `data.instances.map(inst => addInstance(…))` of the receive page: one write per
      row, in row order, each with its own outcome. */
  method ReceiveRows(instances: ObjectStore<AssetInstance>, log: ObjectStore<AssetTransaction>,
                     form: EquipmentReceiveForm, vk: int, now: int)
    returns (created: seq<Result<AssetInstance, StoreError>>)
    requires IsInstanceStore(instances) && IsTransactionStore(log)
    modifies instances, log
    ensures IsInstanceStore(instances) && IsTransactionStore(log)
    ensures (instances.State(), log.State(), created)
            == ReceiveAll(old(instances.State()), old(log.State()), form, form.instances, vk, now)
    ensures Received(old(instances.State()), old(log.State()), instances.State(), log.State(), form, vk, now, created)
  {
    ghost var instSt := instances.State();
    ghost var logSt := log.State();
    created := [];
    var i := 0;
    while i < |form.instances|
      invariant 0 <= i <= |form.instances|
      invariant IsInstanceStore(instances) && IsTransactionStore(log)
      invariant instances.State() == ReceiveAll(instSt, logSt, form, form.instances[..i], vk, now).0
      invariant log.State() == ReceiveAll(instSt, logSt, form, form.instances[..i], vk, now).1
      invariant created == ReceiveAll(instSt, logSt, form, form.instances[..i], vk, now).2
    {
      ghost var rows := form.instances[..i + 1];
      assert rows[..i] == form.instances[..i] && rows[i] == form.instances[i];
      var outcome := ReceiveRow(instances, log, form, form.instances[i], vk, now);
      ReceiveAllStep(instSt, logSt, form, rows, vk, now);
      created := created + [outcome];
      i := i + 1;
    }
    assert form.instances[..i] == form.instances;
    ReceiveAllReceived(instSt, logSt, form, vk, now);
  }

  /** One `addInstance` call of the receive page, for one row. */
  method ReceiveRow(instances: ObjectStore<AssetInstance>, log: ObjectStore<AssetTransaction>,
                    form: EquipmentReceiveForm, row: InstanceRow, vk: int, now: int)
    returns (outcome: Result<AssetInstance, StoreError>)
    requires IsInstanceStore(instances) && IsTransactionStore(log)
    modifies instances, log
    ensures IsInstanceStore(instances) && IsTransactionStore(log)
    ensures (instances.State(), log.State(), outcome)
            == AddInstanceTo(old(instances.State()), old(log.State()), ReceivedInstance(form, row, vk), now)
  {
    outcome := AddInstance(instances, log, ReceivedInstance(form, row, vk), now);
  }

  // ----- StockAddPage -----

  datatype StockAddForm = StockAddForm(
    supplier: Option<string>,
    referenceNumber: Option<string>,
    dateReceived: string,
    receivedByEmployeeId: Option<int>,
    notes: Option<string>,
    catalogID: int,
    officeID: int,
    quantityToAdd: int)

  /** `onSubmit` of the stock page: the voucher is written first, and only once it is stored
      is `addStock(catalogID, officeID, quantityToAdd)` called; nothing passes the voucher's
      id to the stock row. */
  method AddStockWithVoucher(vouchers: ObjectStore<ReceivingVoucher>, stock: ObjectStore<Stock>, form: StockAddForm)
    returns (voucher: Result<ReceivingVoucher, StoreError>, added: Option<Result<AddStockOutcome, StoreError>>)
    requires IsVoucherStore(vouchers) && IsStockStore(stock)
    modifies vouchers, stock
    ensures IsVoucherStore(vouchers) && IsStockStore(stock)
    ensures voucher.Err? ==> added.None? && vouchers.State() == old(vouchers.State()) && stock.State() == old(stock.State())
    ensures voucher.Ok? ==> var vk := old(vouchers.current);
      && voucher.value == ReceiptVoucher(form.supplier, form.referenceNumber, form.dateReceived,
                                         form.receivedByEmployeeId, form.notes).(voucherID := Some(vk))
      && vouchers.records == old(vouchers.records)[vk := voucher.value]
      && added.Some?
      && (stock.State(), added.value) == AddStockTo(old(stock.State()), form.catalogID, form.officeID, form.quantityToAdd)
  {
    voucher := AddVoucher(vouchers, ReceiptVoucher(form.supplier, form.referenceNumber, form.dateReceived,
                                                   form.receivedByEmployeeId, form.notes));
    if voucher.Err? {
      return voucher, None;
    }
    var outcome := AddStock(stock, form.catalogID, form.officeID, form.quantityToAdd);
    added := Some(outcome);
  }

  // ----- AssetCreatePage / AssetEditPage -----

  /** The validated asset form: every field of an asset except its id. */
  datatype AssetForm = AssetForm(
    propertyCode: string,
    name: string,
    assetType: ItemType,
    description: Option<string>,
    quantity: int,
    unitOfMeasurement: Option<string>,
    status: AssetStatus,
    currentOfficeId: int,
    assignedToEmployeeId: Option<int>,
    specificLocation: Option<string>)

  /** `{ ...data, quantity: data.type === 'Equipment' ? 1 : data.quantity }`, with the given
      id in front (`{ assetID, ...payload }`; the form carries no `assetID` of its own). */
  function AssetPayload(id: Option<int>, form: AssetForm): (a: Asset)
    ensures a.assetID == id
    ensures form.assetType == Equipment ==> a.quantity == 1
    ensures form.assetType == Supply ==> a.quantity == form.quantity
    ensures a.(quantity := form.quantity, assetID := None) == FormAsAsset(form)
  {
    Asset(id, form.propertyCode, form.name, form.assetType, form.description,
      if form.assetType == Equipment then 1 else form.quantity,
      form.unitOfMeasurement, form.status, form.currentOfficeId, form.assignedToEmployeeId, form.specificLocation)
  }

  /** The form's fields unchanged, as an asset with no id. */
  function FormAsAsset(form: AssetForm): Asset
  {
    Asset(None, form.propertyCode, form.name, form.assetType, form.description, form.quantity,
      form.unitOfMeasurement, form.status, form.currentOfficeId, form.assignedToEmployeeId, form.specificLocation)
  }

  /** `handleSubmit` of the create page: one `addAsset` of the payload. */
  method CreateAsset(assets: ObjectStore<Asset>, form: AssetForm) returns (res: Result<Asset, StoreError>)
    requires IsAssetStore(assets)
    modifies assets
    ensures IsAssetStore(assets)
    ensures res.Ok? <==> old(assets.current) <= MaxGeneratedKey
    ensures res.Ok? ==> var k := old(assets.current);
      && res.value == AssetPayload(Some(k), form)
      && assets.records == old(assets.records)[k := res.value]
    ensures res.Err? ==> assets.State() == old(assets.State())
  {
    res := AddAsset(assets, AssetPayload(None, form));
  }

  /** `handleSubmit` of the edit page: one `updateAsset` of the payload under the loaded
      asset's id. */
  method EditAsset(assets: ObjectStore<Asset>, loaded: Asset, form: AssetForm) returns (res: Result<int, StoreError>)
    requires IsAssetStore(assets)
    modifies assets
    ensures IsAssetStore(assets)
    ensures loaded.assetID.Some? ==>
      && res == Ok(loaded.assetID.value)
      && assets.records == old(assets.records)[loaded.assetID.value := AssetPayload(loaded.assetID, form)]
    ensures (assets.State(), res) == Put(old(assets.State()), AssetPath(), AssetPayload(loaded.assetID, form))
  {
    res := UpdateAsset(assets, AssetPayload(loaded.assetID, form));
  }

  /** Saving the edit page with the form the create page just stored changes no record:
      the edit's `put` under the new id writes back exactly the record the `add` stored, and
      resolves with that id. */
  lemma {:induction false} EditAfterCreateChangesNothing(st: StoreState<Asset>, form: AssetForm)
    requires WellFormed(st, AssetPath())
    ensures var created := Add(st, AssetPath(), AssetPayload(None, form));
      created.1.Ok? ==>
        var edited := Put(created.0, AssetPath(), AssetPayload(Some(created.1.value), form));
        edited.0.records == created.0.records && edited.1 == created.1
  {
    var created := Add(st, AssetPath(), AssetPayload(None, form));
    if created.1.Ok? {
      var k := created.1.value;
      assert AssetPayload(None, form).(assetID := Some(k)) == AssetPayload(Some(k), form);
      assert created.0.records[k] == AssetPayload(Some(k), form);
      assert created.0.records[k := AssetPayload(Some(k), form)] == created.0.records;
    }
  }
}
