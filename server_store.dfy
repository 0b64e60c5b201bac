/**
 * The file-backed store of the Express server: the data loaded at start-up and
 * the in-memory operations, each followed by a write of the whole data. File
 * reads and writes are not modelled: the file's content is a parameter and
 * each write appends a snapshot of the data to a log.
 */
module ServerStore {
  import opened Decimal
  import opened JsValue
  import opened StoreOps
  import opened Wrappers

  datatype StoreData = StoreData(settings: Object, contentQueue: seq<Object>, services: seq<Object>)

  /** The data file at start-up: absent, not valid JSON, or a parsed JSON value. */
  datatype DataFile = Missing | Unparsable | Parsed(root: Json)

  /**
   * The state start-up leaves: a usable store, or settings together with a
   * truthy `contentQueue` that is not a list of objects (later queue
   * operations on it fail, see Left out).
   */
  datatype Startup = Ready(data: StoreData) | QueueNotAList(loadedSettings: Object, loadedQueue: Json)

  function Initial(): StoreData {
    StoreData(DefaultSettings(), [], [])
  }

  /**
   * `v.key` for a non-null value. An absent property reads as `Null` here:
   * JavaScript's `undefined` behaves like `null` under spread and `||`, the
   * only uses below.
   */
  function Get(v: Json, key: string): Json {
    if v.Obj? && key in v.fields then v.fields[key] else Null
  }

  predicate AllObjects(items: seq<Json>) {
    forall i :: 0 <= i < |items| ==> items[i].Obj?
  }

  function Objects(items: seq<Json>): (os: seq<Object>)
    requires AllObjects(items)
    ensures |os| == |items| && forall i :: 0 <= i < |items| ==> os[i] == items[i].fields
  {
    seq(|items|, i requires 0 <= i < |items| => items[i].fields)
  }

  /**
   * Start-up: file settings shallow-overlay the defaults, a saved list of
   * objects is restored as the queue and a falsy `contentQueue` becomes `[]`. A missing file keeps the defaults; so does a
   * parse failure or a `null` document, whose `loaded.settings` throws inside
   * the `try`. Services are never read back.
   */
  function Load(file: DataFile): (s: Startup)
    ensures !(file.Parsed? && file.root != Null) ==> s == Ready(Initial())
    ensures file.Parsed? && file.root != Null && s.Ready? ==>
      s.data.settings == Merge(DefaultSettings(), Get(file.root, "settings"))
    ensures file.Parsed? && file.root != Null && !Truthy(Get(file.root, "contentQueue")) ==>
      s.Ready? && s.data.contentQueue == []
    ensures s.Ready? ==> s.data.services == []
    ensures file.Parsed? && file.root != Null && Get(file.root, "contentQueue").Arr?
            && AllObjects(Get(file.root, "contentQueue").items) ==>
      s == Ready(StoreData(Merge(DefaultSettings(), Get(file.root, "settings")),
                           Objects(Get(file.root, "contentQueue").items), []))
    ensures s.QueueNotAList? <==>
      && file.Parsed? && file.root != Null && Truthy(Get(file.root, "contentQueue"))
      && !(Get(file.root, "contentQueue").Arr? && AllObjects(Get(file.root, "contentQueue").items))
  {
    match file
    case Missing => Ready(Initial())
    case Unparsable => Ready(Initial())
    case Parsed(root) =>
      if root.Null? then Ready(Initial())
      else
        var settings := Merge(DefaultSettings(), Get(root, "settings"));
        var q := Get(root, "contentQueue");
        if !Truthy(q) then Ready(StoreData(settings, [], []))
        else if q.Arr? && AllObjects(q.items) then Ready(StoreData(settings, Objects(q.items), []))
        else QueueNotAList(settings, q)
  }

  /** A file whose settings are `{ "soundType": "soft" }` loads the defaults with only that key changed. */
  lemma LoadOverlaysDefaults()
    ensures var s := Load(Parsed(Obj(map["settings" := Obj(map["soundType" := Str("soft")])])));
      && s == Ready(StoreData(DefaultSettings()["soundType" := Str("soft")], [], []))
  {
    var file := Parsed(Obj(map["settings" := Obj(map["soundType" := Str("soft")])]));
    assert Get(file.root, "contentQueue") == Null;
    assert Merge(DefaultSettings(), Get(file.root, "settings")) == DefaultSettings()["soundType" := Str("soft")];
  }

  /** `{ ...serviceData, id, createdAt }`: the generated id and timestamp come last and win. */
  function WithTrailingIdAndDate(serviceData: Json, id: string, createdAt: real): (r: Object)
    ensures r.Keys == Spread(serviceData).Keys + {"id", "createdAt"}
    ensures r["id"] == Str(id) && r["createdAt"] == Num(createdAt)
    ensures forall k :: k in Spread(serviceData) && k != "id" && k != "createdAt" ==> r[k] == Spread(serviceData)[k]
  {
    Spread(serviceData) + map["id" := Str(id), "createdAt" := Num(createdAt)]
  }

  class FileStore {
    var settings: Object
    var contentQueue: seq<Object>
    var services: seq<Object>
    /** Every `saveData()` call, with the data it writes. */
    var saved: seq<StoreData>

    function Data(): StoreData
      reads this
    {
      StoreData(settings, contentQueue, services)
    }

    constructor(start: StoreData)
      ensures Data() == start && saved == []
    {
      settings, contentQueue, services := start.settings, start.contentQueue, start.services;
      saved := [];
    }

    method SaveData()
      modifies this`saved
      ensures saved == old(saved) + [Data()]
    {
      saved := saved + [Data()];
    }

    /** `data.settings = { ...data.settings, ...newSettings }`, then one save. */
    method UpdateSettings(newSettings: Json) returns (r: Object)
      modifies this`settings, this`saved
      ensures settings == Merge(old(settings), newSettings) && r == settings
      ensures saved == old(saved) + [Data()]
    {
      settings := Merge(settings, newSettings);
      SaveData();
      r := settings;
    }

    /** Appends `{ id: Date.now().toString(), ...item }`, then one save. */
    method AddToQueue(item: Json, nowMs: nat) returns (newItem: Object)
      modifies this`contentQueue, this`saved
      ensures newItem == WithLeadingId(Dec(nowMs), item)
      ensures contentQueue == old(contentQueue) + [newItem]
      ensures saved == old(saved) + [Data()]
    {
      newItem := WithLeadingId(Dec(nowMs), item);
      contentQueue := contentQueue + [newItem];
      SaveData();
    }

    /** The id filter, then one save. */
    method RemoveFromQueue(id: string)
      modifies this`contentQueue, this`saved
      ensures contentQueue == RemoveById(old(contentQueue), id)
      ensures saved == old(saved) + [Data()]
    {
      contentQueue := RemoveById(contentQueue, id);
      SaveData();
    }

    /** Wholesale replacement, then one save. */
    method UpdateQueue(newQueue: seq<Object>)
      modifies this`contentQueue, this`saved
      ensures contentQueue == newQueue
      ensures saved == old(saved) + [Data()]
    {
      contentQueue := newQueue;
      SaveData();
    }

    /**
     * Appends `{ ...serviceData, id, createdAt }` with the two `Date.now()`
     * readings, then one save.
     */
    method AddService(serviceData: Json, idNow: nat, createdNow: nat) returns (newService: Object)
      modifies this`services, this`saved
      ensures newService == WithTrailingIdAndDate(serviceData, Dec(idNow), createdNow as real)
      ensures services == old(services) + [newService]
      ensures saved == old(saved) + [Data()]
    {
      newService := WithTrailingIdAndDate(serviceData, Dec(idNow), createdNow as real);
      services := services + [newService];
      SaveData();
    }

    /** Merges into the first service with the id and saves; `null` and no save when there is none. */
    method UpdateService(id: string, updates: Json) returns (r: Option<Object>)
      modifies this`services, this`saved
      ensures UpdateById(old(services), id, updates).NoMatch? ==>
        r == None && services == old(services) && saved == old(saved)
      ensures UpdateById(old(services), id, updates).Merged? ==>
        && services == UpdateById(old(services), id, updates).list
        && r == Some(UpdateById(old(services), id, updates).entry)
        && saved == old(saved) + [Data()]
    {
      var index := FindById(services, id);
      if index == -1 {
        return None;
      }
      services := services[index := Merge(services[index], updates)];
      SaveData();
      r := Some(services[index]);
    }
  }
}
