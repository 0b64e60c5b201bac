/**
 * The in-memory store of the serverless API: settings, the content queue, the
 * services and one id counter shared by queue items and services.
 */
module ApiStore {
  import opened Decimal
  import opened JsValue
  import opened StoreOps
  import opened Wrappers

  predicate StrictlyIncreasing(s: seq<nat>) {
    forall i, j :: 0 <= i < j < |s| ==> s[i] < s[j]
  }

  /** Counter values handed out in increasing order give pairwise distinct id strings. */
  lemma IssuedIdsDistinct(issued: seq<nat>, i: nat, j: nat)
    requires StrictlyIncreasing(issued) && i < j < |issued|
    ensures Str(Dec(issued[i])) != Str(Dec(issued[j]))
  {
    GeneratedIdsDistinct(issued[i], issued[j]);
  }

  class MemoryStore {
    var settings: Object
    var queue: seq<Object>
    var services: seq<Object>
    var idCounter: nat
    /** The counter values used as ids so far, by either add operation. */
    ghost var issued: seq<nat>

    /** The counter starts at 1 and only grows, so every value it handed out is below it, in order. */
    ghost predicate Valid()
      reads this
    {
      && idCounter >= 1
      && StrictlyIncreasing(issued)
      && forall i :: 0 <= i < |issued| ==> issued[i] < idCounter
    }

    constructor()
      ensures Valid()
      ensures settings == DefaultSettings() && queue == [] && services == [] && idCounter == 1 && issued == []
    {
      settings := DefaultSettings();
      queue, services := [], [];
      idCounter := 1;
      issued := [];
    }

    /** `settings = { ...settings, ...newSettings }`. */
    method UpdateSettings(newSettings: Json) returns (r: Object)
      modifies this`settings
      ensures settings == Merge(old(settings), newSettings) && r == settings
    {
      settings := Merge(settings, newSettings);
      r := settings;
    }

    /** Appends `{ id: String(idCounter++), ...item }`. */
    method AddToQueue(item: Json) returns (newItem: Object)
      requires Valid()
      modifies this`queue, this`idCounter, this`issued
      ensures Valid()
      ensures newItem == WithLeadingId(Dec(old(idCounter)), item)
      ensures queue == old(queue) + [newItem]
      ensures idCounter == old(idCounter) + 1 && issued == old(issued) + [old(idCounter)]
      ensures "id" !in Spread(item) ==> newItem["id"] == Str(Dec(old(idCounter)))
    {
      var id := Dec(idCounter);
      idCounter := idCounter + 1;
      issued := issued + [idCounter - 1];
      newItem := WithLeadingId(id, item);
      queue := queue + [newItem];
    }

    /** `queue = queue.filter(item => item.id !== id)`. */
    method RemoveFromQueue(id: string)
      modifies this`queue
      ensures queue == RemoveById(old(queue), id)
    {
      queue := RemoveById(queue, id);
    }

    /** `queue = newQueue`. */
    method UpdateQueue(newQueue: seq<Object>)
      modifies this`queue
      ensures queue == newQueue
    {
      queue := newQueue;
    }

    /** Appends `{ id: String(idCounter++), ...item }` to the services, from the same counter. */
    method AddService(item: Json) returns (newItem: Object)
      requires Valid()
      modifies this`services, this`idCounter, this`issued
      ensures Valid()
      ensures newItem == WithLeadingId(Dec(old(idCounter)), item)
      ensures services == old(services) + [newItem]
      ensures idCounter == old(idCounter) + 1 && issued == old(issued) + [old(idCounter)]
    {
      var id := Dec(idCounter);
      idCounter := idCounter + 1;
      issued := issued + [idCounter - 1];
      newItem := WithLeadingId(id, item);
      services := services + [newItem];
    }

    /** Merges `updates` into the first service with the id; `null` and no change when there is none. */
    method UpdateService(id: string, updates: Json) returns (r: Option<Object>)
      modifies this`services
      ensures UpdateById(old(services), id, updates).NoMatch? ==> r == None && services == old(services)
      ensures UpdateById(old(services), id, updates).Merged? ==>
        && services == UpdateById(old(services), id, updates).list
        && r == Some(UpdateById(old(services), id, updates).entry)
    {
      var index := FindById(services, id);
      if index == -1 {
        return None;
      }
      services := services[index := Merge(services[index], updates)];
      r := Some(services[index]);
    }
  }
}
