/**
 * `update_db` of ids.py: the two-table store it rewrites, the statements it
 * sends through its cursor, and the replacement it performs.
 */
module IdsStore {
  import opened Wrappers
  import opened Ids

  /** A row of `vendors(id TEXT, name TEXT)`; None stands for SQL NULL. */
  datatype VendorRow = VendorRow(id: Option<string>, name: Option<string>)

  /** A row of `devices(id TEXT, name TEXT, vendor TEXT)`. */
  datatype DeviceRow = DeviceRow(id: string, name: string, vendor: Option<string>)

  datatype Table = VendorsTable | DevicesTable

  /** The statements update_db executes, in the forms it uses them. */
  datatype Statement =
    | DropIfExists(table: Table)          // DROP TABLE IF EXISTS ...
    | Create(table: Table)                // CREATE TABLE ...
    | InsertVendor(vendorRow: VendorRow)  // INSERT INTO vendors VALUES (?, ?)
    | InsertDevice(deviceRow: DeviceRow)  // INSERT INTO devices VALUES (?, ?, ?)
    | Commit                              // con.commit()

  /**
   * What the connection holds: each table's presence and rows, and whether
   * a transaction holds uncommitted inserts.
   */
  datatype DbState = DbState(
    hasVendors: bool, vendors: seq<VendorRow>,
    hasDevices: bool, devices: seq<DeviceRow>,
    pending: bool)

  /** A table that does not exist holds no rows. */
  predicate Consistent(st: DbState)
  {
    (!st.hasVendors ==> st.vendors == []) && (!st.hasDevices ==> st.devices == [])
  }

  /** The table a statement is about; commit is about none. */
  function TableOf(s: Statement): Option<Table>
  {
    match s
    case DropIfExists(t) => Some(t)
    case Create(t) => Some(t)
    case InsertVendor(_) => Some(VendorsTable)
    case InsertDevice(_) => Some(DevicesTable)
    case Commit => None
  }

  /**
   * The engine's own semantics of one statement: None where sqlite raises
   * whatever the environment does (creating a table that exists, inserting
   * into one that does not). Under the default transaction control of
   * Python's sqlite3 module only INSERT opens a transaction; DROP and CREATE
   * outside one take effect at once, and inside one join it.
   */
  function Apply(st: DbState, s: Statement): (r: Option<DbState>)
    ensures r.None? ==> s.Create? || s.InsertVendor? || s.InsertDevice?
    ensures r.Some? && Consistent(st) ==> Consistent(r.value)
    ensures r.Some? ==> r.value.pending == (if s.Commit? then false
                                             else if s.InsertVendor? || s.InsertDevice? then true
                                             else st.pending)
    ensures r.Some? && TableOf(s) != Some(VendorsTable) ==>
              r.value.hasVendors == st.hasVendors && r.value.vendors == st.vendors
    ensures r.Some? && TableOf(s) != Some(DevicesTable) ==>
              r.value.hasDevices == st.hasDevices && r.value.devices == st.devices
  {
    match s
    case DropIfExists(VendorsTable) => Some(st.(hasVendors := false, vendors := []))
    case DropIfExists(DevicesTable) => Some(st.(hasDevices := false, devices := []))
    case Create(VendorsTable) =>
      if st.hasVendors then None else Some(st.(hasVendors := true, vendors := []))
    case Create(DevicesTable) =>
      if st.hasDevices then None else Some(st.(hasDevices := true, devices := []))
    case InsertVendor(r) =>
      if !st.hasVendors then None else Some(st.(vendors := st.vendors + [r], pending := true))
    case InsertDevice(r) =>
      if !st.hasDevices then None else Some(st.(devices := st.devices + [r], pending := true))
    case Commit => Some(st.(pending := false))
  }

  /** The vendor rows update_db inserts: one per pair, duplicates kept. */
  function VendorRows(data: seq<(Vendor, Device)>): seq<VendorRow>
  {
    seq(|data|, i requires 0 <= i < |data| => VendorRow(data[i].0.id, data[i].0.name))
  }

  /** The device rows update_db inserts; the vendor column takes the pair's vendor id. */
  function DeviceRows(data: seq<(Vendor, Device)>): seq<DeviceRow>
  {
    seq(|data|, i requires 0 <= i < |data| => DeviceRow(data[i].1.id, data[i].1.name, data[i].0.id))
  }

  /** The number of statements update_db runs for n pairs: two drops, two creates, two inserts per pair, a commit. */
  function StatementCount(n: nat): nat
  {
    2 * n + 5
  }

  /** No statement numbered from `from` up to `from + count` is the one the environment makes fail. */
  predicate FaultFree(faultAt: Option<nat>, from: nat, count: nat)
  {
    faultAt.None? || faultAt.value < from || from + count <= faultAt.value
  }

  /**
   * A database connection. Besides the tables it holds, it records how many
   * statements it has run and, as a parameter of the environment, the
   * number of the statement on which the engine raises for reasons of its
   * own (a locked or read-only file, a full disk), if any.
   */
  class Connection {
    var hasVendors: bool
    var vendors: seq<VendorRow>
    var hasDevices: bool
    var devices: seq<DeviceRow>
    var pending: bool
    var executed: nat
    const faultAt: Option<nat>

    function State(): DbState
      reads this
    {
      DbState(hasVendors, vendors, hasDevices, devices, pending)
    }

    /** The connection's invariant: a table that does not exist holds no rows. */
    predicate Valid()
      reads this
    {
      Consistent(State())
    }

    constructor (initial: DbState, faultAt: Option<nat>)
      requires Consistent(initial)
      ensures Valid()
      ensures State() == initial && executed == 0 && this.faultAt == faultAt
    {
      hasVendors, vendors := initial.hasVendors, initial.vendors;
      hasDevices, devices := initial.hasDevices, initial.devices;
      pending := initial.pending;
      executed := 0;
      this.faultAt := faultAt;
    }

    /**
     * cursor.execute / con.commit: false where the call raises. After a
     * fault sqlite may roll back the open transaction, so a failed call
     * promises only the connection's invariant.
     */
    method Execute(s: Statement) returns (ok: bool)
      requires Valid()
      modifies this
      ensures Valid()
      ensures executed == old(executed) + 1
      ensures ok <==> faultAt != Some(old(executed)) && Apply(old(State()), s).Some?
      ensures ok ==> State() == Apply(old(State()), s).value
    {
      var next := Apply(State(), s);
      ok := faultAt != Some(executed) && next.Some?;
      if ok {
        hasVendors, vendors := next.value.hasVendors, next.value.vendors;
        hasDevices, devices := next.value.hasDevices, next.value.devices;
        pending := next.value.pending;
      }
      executed := executed + 1;
    }

    /**
     * update_db: drop and recreate both tables, insert one vendor row and
     * one device row per pair, commit. True exactly when no statement
     * raised; then the tables hold the new rows and nothing of the old.
     */
    method UpdateDb(data: seq<(Vendor, Device)>) returns (ok: bool)
      requires Valid()
      modifies this
      ensures Valid()
      ensures ok <==> FaultFree(faultAt, old(executed), StatementCount(|data|))
      ensures ok ==> State() == DbState(true, VendorRows(data), true, DeviceRows(data), false)
    {
      var start := executed;
      ghost var pendingBefore := pending;
      ok := Recreate();
      if !ok { return; }
      var i := 0;
      while i < |data|
        invariant 0 <= i <= |data|
        invariant Valid()
        invariant executed == start + 4 + 2 * i
        invariant FaultFree(faultAt, start, 4 + 2 * i)
        invariant State() == DbState(true, VendorRows(data[..i]), true, DeviceRows(data[..i]),
                                     if i == 0 then pendingBefore else true)
      {
        ok := InsertPair(data[i]);
        if !ok { return; }
        assert data[..i + 1] == data[..i] + [data[i]];
        i := i + 1;
      }
      assert data[..|data|] == data;
      ok := Execute(Commit);
    }

    /** The two drops and the two creates of update_db. */
    method Recreate() returns (ok: bool)
      requires Valid()
      modifies this
      ensures Valid()
      ensures executed <= old(executed) + 4
      ensures ok <==> FaultFree(faultAt, old(executed), 4)
      ensures ok ==> executed == old(executed) + 4 && State() == DbState(true, [], true, [], old(pending))
    {
      ok := Execute(DropIfExists(VendorsTable));
      if !ok { return; }
      ok := Execute(DropIfExists(DevicesTable));
      if !ok { return; }
      ok := Execute(Create(VendorsTable));
      if !ok { return; }
      ok := Execute(Create(DevicesTable));
    }

    /** The two inserts update_db runs for one (vendor, device) pair. */
    method InsertPair(pair: (Vendor, Device)) returns (ok: bool)
      requires Valid() && hasVendors && hasDevices
      modifies this
      ensures Valid()
      ensures ok <==> FaultFree(faultAt, old(executed), 2)
      ensures ok ==> executed == old(executed) + 2
      ensures ok ==> State() == old(State()).(vendors := old(vendors) + VendorRows([pair]),
                                               devices := old(devices) + DeviceRows([pair]),
                                               pending := true)
    {
      var (vendor, device) := pair;
      ok := Execute(InsertVendor(VendorRow(vendor.id, vendor.name)));
      if !ok { return; }
      ok := Execute(InsertDevice(DeviceRow(device.id, device.name, vendor.id)));
    }
  }

  /** Some vendor row carries the id v. */
  predicate VendorListed(vendors: seq<VendorRow>, v: Option<string>)
  {
    exists i :: 0 <= i < |vendors| && vendors[i].id == v
  }

  /** Every device row written by a successful update names the id of some vendor row. */
  lemma DeviceVendorsListed(data: seq<(Vendor, Device)>)
    ensures forall j :: 0 <= j < |DeviceRows(data)| ==> VendorListed(VendorRows(data), DeviceRows(data)[j].vendor)
  {
    var vendors, devices := VendorRows(data), DeviceRows(data);
    forall j | 0 <= j < |devices| ensures VendorListed(vendors, devices[j].vendor) {
      assert vendors[j].id == devices[j].vendor;
    }
  }

  /**
   * Through format_data and update_db, row i of the parse becomes vendor
   * row i and device row i, with the device pointing at its vendor's id.
   */
  lemma StoredRowsOfParsed(rows: seq<Row>, data: seq<(Vendor, Device)>)
    requires |data| == |rows|
    requires forall i :: 0 <= i < |data| ==> ToRow(data[i]) == rows[i]
    ensures |VendorRows(data)| == |DeviceRows(data)| == |rows|
    ensures forall i :: 0 <= i < |rows| ==>
              VendorRows(data)[i] == VendorRow(rows[i].vendorId, rows[i].vendorName)
              && DeviceRows(data)[i] == DeviceRow(rows[i].deviceId, rows[i].deviceName, rows[i].vendorId)
  {
    forall i | 0 <= i < |rows|
      ensures VendorRows(data)[i] == VendorRow(rows[i].vendorId, rows[i].vendorName)
      ensures DeviceRows(data)[i] == DeviceRow(rows[i].deviceId, rows[i].deviceName, rows[i].vendorId)
    {
      assert ToRow(data[i]) == rows[i];
    }
  }
}
