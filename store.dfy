/**
 * The in-memory data store: three dictionaries from record id to record (wells,
 * trajectories, casings), filled once at start-up either from a persisted snapshot
 * or from a built-in seed that is then persisted, and the status page that
 * reports how much was loaded.
 */
module Store {
  import opened Wrappers
  import opened Json
  import opened Dicts

  /**
   * A well, trajectory or casing record.  Only `id` and `well_id` are looked at by
   * the server; every other field is an opaque payload kept in `attrs`.  Wells have
   * no `well_id`.
   */
  datatype RecordData = Record(id: string, wellId: Option<string>, attrs: map<string, Value>)

  /** The payload never holds the two fields the server looks at: they live in `id` and `wellId`. */
  type Record = r: RecordData | "id" !in r.attrs && "well_id" !in r.attrs witness Record("", None, map[])

  /** The record as the JSON object the server returns for it. */
  function ToJson(r: Record): (v: Value)
    ensures v.Obj? && "id" in v.fields && v.fields["id"] == Str(r.id)
    ensures "well_id" in v.fields <==> r.wellId.Some?
    ensures r.wellId.Some? ==> v.fields["well_id"] == Str(r.wellId.value)
    ensures forall k :: k in r.attrs ==> k in v.fields && v.fields[k] == r.attrs[k]
  {
    var own := if r.wellId.Some? then map["id" := Str(r.id), "well_id" := Str(r.wellId.value)]
               else map["id" := Str(r.id)];
    Obj(r.attrs + own)
  }

  /**
   * A list of records as a JSON array, element by element: element i is an object
   * carrying record i's id, its `well_id` exactly when it has one, and its payload.
   */
  function ListJson(rs: seq<Record>): (v: Value)
    ensures v.Arr? && |v.items| == |rs|
    ensures forall i :: 0 <= i < |rs| ==>
      v.items[i].Obj? && "id" in v.items[i].fields && v.items[i].fields["id"] == Str(rs[i].id)
      && ("well_id" in v.items[i].fields <==> rs[i].wellId.Some?)
      && (rs[i].wellId.Some? ==> v.items[i].fields["well_id"] == Str(rs[i].wellId.value))
    ensures forall i, k :: 0 <= i < |rs| && k in rs[i].attrs ==> k in v.items[i].fields && v.items[i].fields[k] == rs[i].attrs[k]
  {
    Arr(seq(|rs|, i requires 0 <= i < |rs| => ToJson(rs[i])))
  }

  /** The key a record is filed under when a snapshot is loaded: its `id`. */
  function Id(r: Record): string {
    r.id
  }

  /** The three dictionaries, as the dispatcher reads them. */
  datatype Tables = Tables(wells: Dict<Record>, trajectories: Dict<Record>, casings: Dict<Record>) {
    ghost predicate Valid() {
      wells.Valid() && trajectories.Valid() && casings.Valid()
    }

    /** Every record is filed under its own id. */
    ghost predicate KeyedById() {
      KeyedBy(wells, Id) && KeyedBy(trajectories, Id) && KeyedBy(casings, Id)
    }
  }

  /** The persisted document: one list of records per kind. */
  datatype Snapshot = Snapshot(wells: seq<Record>, trajectories: seq<Record>, casings: seq<Record>)

  /** The dictionaries `load_data` builds from a document, each record keyed by its `id`. */
  function Load(s: Snapshot): (t: Tables)
    ensures t.Valid()
  {
    Tables(FromList(s.wells, Id), FromList(s.trajectories, Id), FromList(s.casings, Id))
  }

  /**
   * The document `save_data` writes: each dictionary's values, in order.  Loading it
   * back gives the same dictionaries whenever every record is filed under its id.
   */
  function Save(t: Tables): (s: Snapshot)
    requires t.Valid()
    ensures s.wells == Values(t.wells) && s.trajectories == Values(t.trajectories) && s.casings == Values(t.casings)
    ensures t.KeyedById() ==> Load(s) == t
  {
    assert t.KeyedById() ==> Load(Snapshot(Values(t.wells), Values(t.trajectories), Values(t.casings))) == t by {
      if t.KeyedById() {
        FromValues(t.wells, Id);
        FromValues(t.trajectories, Id);
        FromValues(t.casings, Id);
      }
    }
    Snapshot(Values(t.wells), Values(t.trajectories), Values(t.casings))
  }

  /** A survey station of a sample trajectory. */
  function Station(md: real, tvd: real, incl: real, azi: real): Value {
    Obj(map["md" := Float(md), "tvd" := Float(tvd), "incl" := Float(incl), "azi" := Float(azi)])
  }

  /** A sample well: name, operator and location. */
  function Well(id: string, facility: string, operator: string, lat: real, lon: real): Record {
    Record(id, None, map["facility_name" := Str(facility), "operator" := Str(operator),
                         "location" := Obj(map["lat" := Float(lat), "lon" := Float(lon)])])
  }

  /** A sample trajectory of a well. */
  function Trajectory(id: string, wellId: string, stations: seq<Value>): Record {
    Record(id, Some(wellId), map["stations" := Arr(stations)])
  }

  /** A sample casing of a well: depth interval and diameter. */
  function Casing(id: string, wellId: string, top: real, bottom: real, diameter: real): Record {
    Record(id, Some(wellId), map["top_depth" := Float(top), "bottom_depth" := Float(bottom), "diameter" := Float(diameter)])
  }

  /** The sample wells of `init_data`. */
  function SeedWells(): (d: Dict<Record>)
    ensures d.Valid() && KeyedBy(d, Id) && |d.keys| == 2
  {
    var w1 := Well("well1", "Well A", "OperatorX", 29.75, -95.48);
    var w2 := Well("well2", "Well B", "OperatorY", 30.12, -96.34);
    assert "well1" != "well2" by { assert "well1"[4] != "well2"[4]; }
    var entries: map<string, Record> := map["well1" := w1, "well2" := w2];
    Dict(["well1", "well2"], entries)
  }

  /** The sample trajectories of `init_data`. */
  function SeedTrajectories(): (d: Dict<Record>)
    ensures d.Valid() && KeyedBy(d, Id) && |d.keys| == 2
  {
    var t1 := Trajectory("traj1", "well1", [Station(0.0, 0.0, 0.0, 0.0), Station(1000.0, 900.0, 10.0, 45.0)]);
    var t2 := Trajectory("traj2", "well2", [Station(0.0, 0.0, 0.0, 0.0), Station(1500.0, 1300.0, 15.0, 90.0)]);
    assert "traj1" != "traj2" by { assert "traj1"[4] != "traj2"[4]; }
    var entries: map<string, Record> := map["traj1" := t1, "traj2" := t2];
    Dict(["traj1", "traj2"], entries)
  }

  /** The sample casings of `init_data`: two in well1, one in well2. */
  function SeedCasings(): (d: Dict<Record>)
    ensures d.Valid() && KeyedBy(d, Id) && |d.keys| == 3
  {
    var c1 := Casing("casing1", "well1", 0.0, 500.0, 9.625);
    var c1b := Casing("casing1b", "well1", 500.0, 1000.0, 7.0);
    var c2 := Casing("casing2", "well2", 0.0, 700.0, 7.0);
    assert "casing1" != "casing2" by { assert "casing1"[6] != "casing2"[6]; }
    assert "casing1" != "casing1b" && "casing1b" != "casing2" by {
      assert |"casing1"| != |"casing1b"| && |"casing1b"| != |"casing2"|;
    }
    var entries: map<string, Record> := map["casing1" := c1, "casing1b" := c1b, "casing2" := c2];
    Dict(["casing1", "casing1b", "casing2"], entries)
  }

  /** The built-in sample data of `init_data`: every record filed under its own id. */
  function Seed(): (t: Tables)
    ensures t.Valid() && t.KeyedById()
    ensures |Values(t.wells)| == 2 && |Values(t.trajectories)| == 2 && |Values(t.casings)| == 3
  {
    Tables(SeedWells(), SeedTrajectories(), SeedCasings())
  }

  const LOADED := "Data loaded successfully."
  const NOT_LOADED := "Data failed to load."

  /** The body of the status page: a status line and one record count per kind. */
  datatype Health = Health(status: string, wells: nat, trajectories: nat, casings: nat)

  /** `GET /`: loaded iff some dictionary is non-empty; the counts are the dictionary sizes. */
  function Root(t: Tables): (h: Health)
    requires t.Valid()
    ensures h.wells == |Values(t.wells)| && h.trajectories == |Values(t.trajectories)| && h.casings == |Values(t.casings)|
    ensures h.status == LOADED <==> Values(t.wells) != [] || Values(t.trajectories) != [] || Values(t.casings) != []
    ensures h.status == LOADED || h.status == NOT_LOADED
  {
    var loaded := t.wells.entries != map[] || t.trajectories.entries != map[] || t.casings.entries != map[];
    Health(if loaded then LOADED else NOT_LOADED, Size(t.wells), Size(t.trajectories), Size(t.casings))
  }

  /** After seeding, the status page reports success with two wells, two trajectories and three casings. */
  lemma SeedHealth()
    ensures Root(Seed()) == Health(LOADED, 2, 2, 3)
  {
  }

  /** Seeding, saving and reloading reproduces the seed exactly. */
  lemma SeedRoundTrip()
    ensures Load(Save(Seed())) == Seed()
  {
  }

  /**
   * The module-level dictionaries `wells`, `trajectories` and `casings`, which
   * `load_data` and `init_data` rebind at start-up.
   */
  class Store {
    var wells: Dict<Record>
    var trajectories: Dict<Record>
    var casings: Dict<Record>

    /** The three dictionaries are well formed. */
    ghost predicate Valid()
      reads this
    {
      Contents().Valid()
    }

    /** The dictionaries as the dispatcher reads them. */
    function Contents(): Tables
      reads this
    {
      Tables(wells, trajectories, casings)
    }

    /** The three dictionaries before start-up: all empty. */
    constructor ()
      ensures Valid() && Contents() == Tables(Empty(), Empty(), Empty())
    {
      wells, trajectories, casings := Empty(), Empty(), Empty();
    }

    /** `init_data`: install the seed and return the document it persists. */
    method InitData() returns (written: Snapshot)
      modifies this
      ensures Valid() && Contents() == Seed()
      ensures written == Save(Seed())
    {
      var seed := Seed();
      wells, trajectories, casings := seed.wells, seed.trajectories, seed.casings;
      written := Save(Contents());
    }

    /** The part of `load_data` that rebuilds the dictionaries from a persisted document. */
    method LoadSnapshot(snapshot: Snapshot)
      modifies this
      ensures Valid() && Contents() == Load(snapshot)
    {
      var t := Load(snapshot);
      wells, trajectories, casings := t.wells, t.trajectories, t.casings;
    }

    /**
     * `load_data`: load the persisted document when there is one, otherwise seed and
     * persist the seed.  `written` is the document written, if any.
     */
    method LoadData(persisted: Option<Snapshot>) returns (written: Option<Snapshot>)
      modifies this
      ensures Valid()
      ensures persisted.Some? ==> Contents() == Load(persisted.value) && written == None
      ensures persisted.None? ==> Contents() == Seed() && written == Some(Save(Seed()))
    {
      if persisted.Some? {
        LoadSnapshot(persisted.value);
        written := None;
      } else {
        var s := InitData();
        written := Some(s);
      }
    }
  }

  /** A first start seeds and persists; a second start from that document loads the same dictionaries. */
  method Restart() returns (first: Tables, second: Tables)
    ensures first == second == Seed()
  {
    var store := new Store();
    var written := store.LoadData(None);
    first := store.Contents();
    written := store.LoadData(written);
    second := store.Contents();
  }
}
