/**
  The agent's durable outbox (internal/agent/outbox/outbox.go): one JSON file per job, written
  to a temporary name and renamed. `View` is the map from job id to event that a directory
  stands for; every method is specified on it.
*/
module Outbox {
  import opened Prelude

  datatype Kind = Complete | Fail | Cancelled

  /** `createdAt` counts from the zero time, which it is until the event is enqueued. */
  datatype Event = Event(jobId: string, kind: Kind, snapshotId: string, bytes: int,
                         paths: seq<string>, reason: string, createdAt: int)

  /** A file either parses to an event or does not (half written, corrupt). */
  datatype File = Whole(event: Event) | Torn

  type Disk = map<string, File>

  // ── File names ───────────────────────────────────────────────────────────────

  /** `filepath.Ext`: from the last dot of the last path element. */
  function Ext(name: string): string {
    if name == "" || name[|name| - 1] == '/' then ""
    else if name[|name| - 1] == '.' then "."
    else
      var front := name[..|name| - 1];
      var e := Ext(front);
      if e == "" then "" else e + [name[|name| - 1]]
  }

  function PathOf(id: string): string { id + ".json" }

  function TmpOf(id: string): string { PathOf(id) + ".tmp" }

  lemma {:induction false} ExtSuffix(front: string, suffix: string)
    requires Ext(front) != "" && '.' !in suffix && '/' !in suffix
    ensures Ext(front + suffix) == Ext(front) + suffix
  {
    if suffix == "" {
      assert front + suffix == front;
    } else {
      var last := |suffix| - 1;
      ExtSuffix(front, suffix[..last]);
      assert (front + suffix)[..|front + suffix| - 1] == front + suffix[..last];
      assert suffix == suffix[..last] + [suffix[last]];
    }
  }

  lemma ExtOfPath(id: string)
    ensures Ext(PathOf(id)) == ".json"
  {
    ExtSuffix(id + ".", "json");
    assert PathOf(id) == id + "." + "json";
  }

  lemma ExtOfTmp(id: string)
    ensures Ext(TmpOf(id)) == ".tmp"
  {
    ExtSuffix(PathOf(id) + ".", "tmp");
    assert TmpOf(id) == PathOf(id) + "." + "tmp";
  }

  lemma PathInjective(a: string, b: string)
    requires PathOf(a) == PathOf(b)
    ensures a == b
  {
    assert a == PathOf(a)[..|PathOf(a)| - 5];
    assert b == PathOf(b)[..|PathOf(b)| - 5];
  }

  /** All the later proofs need to know about names. */
  lemma NamesApart(id: string)
    ensures Ext(PathOf(id)) == ".json" && Ext(TmpOf(id)) != ".json"
    ensures forall other :: PathOf(other) == PathOf(id) ==> other == id
    ensures forall other :: PathOf(other) != TmpOf(id)
  {
    ExtOfPath(id);
    ExtOfTmp(id);
    forall other | PathOf(other) == PathOf(id) ensures other == id {
      PathInjective(other, id);
    }
    forall other ensures PathOf(other) != TmpOf(id) {
      ExtOfPath(other);
    }
  }

  // ── What a directory means ───────────────────────────────────────────────────

  predicate Listed(d: Disk, name: string) {
    name in d && Ext(name) == ".json" && d[name].Whole?
  }

  /** A readable event sits under the name made from its own job id. */
  ghost predicate Valid(d: Disk) {
    forall name :: Listed(d, name) ==> name == PathOf(d[name].event.jobId)
  }

  ghost function View(d: Disk): (m: map<string, Event>)
    ensures Valid(d) ==> forall id {:trigger id in m} :: id in m <==> Listed(d, PathOf(id))
  {
    var ids := set name | name in d && Listed(d, name) :: d[name].event.jobId;
    assert Valid(d) ==> forall id {:trigger id in ids} :: id in ids <==> Listed(d, PathOf(id)) by {
      if Valid(d) {
        forall id ensures id in ids <==> Listed(d, PathOf(id)) {
          if Listed(d, PathOf(id)) {
            PathInjective(id, d[PathOf(id)].event.jobId);
          }
        }
      }
    }
    map id | id in ids && Listed(d, PathOf(id)) :: d[PathOf(id)].event
  }

  /** Two directories that list the same events mean the same map. */
  lemma SameListing(d: Disk, u: Disk)
    requires Valid(d)
    requires forall name :: Listed(u, name) <==> Listed(d, name)
    requires forall name :: Listed(u, name) && Listed(d, name) ==> u[name] == d[name]
    ensures Valid(u) && View(u) == View(d)
  {
  }

  /** One more event under its own name updates the map at its job id. */
  lemma OneMoreEvent(d: Disk, u: Disk, e: Event, path: string)
    requires Valid(d) && path == PathOf(e.jobId)
    requires forall other :: PathOf(other) == path ==> other == e.jobId
    requires Listed(u, path) && u[path].event == e
    requires forall name :: name != path ==> (Listed(u, name) <==> Listed(d, name))
    requires forall name :: name != path && Listed(u, name) && Listed(d, name) ==> u[name] == d[name]
    ensures Valid(u) && View(u) == View(d)[e.jobId := e]
  {
  }

  /** Writing or removing a temporary file is invisible. */
  lemma TmpIsInvisible(d: Disk, id: string, f: File)
    requires Valid(d)
    ensures var u := d[TmpOf(id) := f]; Valid(u) && View(u) == View(d)
    ensures var u := d - {TmpOf(id)}; Valid(u) && View(u) == View(d)
  {
    NamesApart(id);
    SameListing(d, d[TmpOf(id) := f]);
    SameListing(d, d - {TmpOf(id)});
  }

  lemma RenameIsUpdate(d: Disk, e: Event)
    requires Valid(d)
    ensures var u := (d - {TmpOf(e.jobId)})[PathOf(e.jobId) := Whole(e)];
            Valid(u) && View(u) == View(d)[e.jobId := e]
  {
    NamesApart(e.jobId);
    OneMoreEvent(d, (d - {TmpOf(e.jobId)})[PathOf(e.jobId) := Whole(e)], e, PathOf(e.jobId));
  }

  lemma DropIsRemoval(d: Disk, id: string)
    requires Valid(d)
    ensures Valid(d - {PathOf(id)}) && View(d - {PathOf(id)}) == View(d) - {id}
  {
    NamesApart(id);
    OneLessEvent(d, d - {PathOf(id)}, id, PathOf(id));
  }

  lemma OneLessEvent(d: Disk, u: Disk, id: string, path: string)
    requires Valid(d) && path == PathOf(id)
    requires forall other :: PathOf(other) == path ==> other == id
    requires !Listed(u, path)
    requires forall name :: name != path ==> (Listed(u, name) <==> Listed(d, name))
    requires forall name :: name != path && Listed(u, name) && Listed(d, name) ==> u[name] == d[name]
    ensures Valid(u) && View(u) == View(d) - {id}
  {
  }

  // ── The store ────────────────────────────────────────────────────────────────

  /** Which system call of `Enqueue` fails, if any, and whether the clean-up worked. */
  datatype Fault = NoFault | CreateFails | WriteFails | RenameFails(removed: bool)

  /** From index `n` on every directory content stands for `a` or for `b`. */
  ghost predicate MeansEither(disks: seq<Disk>, n: nat, a: map<string, Event>, b: map<string, Event>) {
    forall k :: n <= k < |disks| ==> Valid(disks[k]) && (View(disks[k]) == a || View(disks[k]) == b)
  }

  /** `stored` is `e` as reported; only a missing creation time is filled in. */
  ghost predicate SameEvent(stored: Event, e: Event, now: int) {
    && stored.jobId == e.jobId && stored.kind == e.kind
    && stored.snapshotId == e.snapshotId && stored.bytes == e.bytes && stored.paths == e.paths
    && stored.reason == e.reason
    && stored.createdAt == if e.createdAt == 0 then now else e.createdAt
  }

  /** `m` has the reported event for its job, and for every other job what `was` has. */
  ghost predicate Holds(m: map<string, Event>, was: map<string, Event>, e: Event, now: int) {
    && e.jobId in m && SameEvent(m[e.jobId], e, now)
    && (forall id :: id != e.jobId ==> (id in m <==> id in was))
    && (forall id :: id != e.jobId && id in m && id in was ==> m[id] == was[id])
  }

  /** From index `n` on every directory content stands for the old map or for one that holds the event. */
  ghost predicate OldOrHolds(disks: seq<Disk>, n: nat, was: map<string, Event>, e: Event, now: int) {
    forall k :: n <= k < |disks| ==> Valid(disks[k]) && (View(disks[k]) == was || Holds(View(disks[k]), was, e, now))
  }

  lemma UpdateHolds(was: map<string, Event>, stored: Event, e: Event, now: int)
    requires SameEvent(stored, e, now)
    ensures Holds(was[e.jobId := stored], was, e, now)
  {
  }

  /** First nothing but the old map, up to `mid`, then one map that is the old one or holds the event. */
  lemma OldThenNew(mid: seq<Disk>, disks: seq<Disk>, n: nat, was: map<string, Event>, m: map<string, Event>, e: Event, now: int)
    requires mid <= disks && MeansEither(mid, n, was, was) && MeansEither(disks, |mid|, m, m)
    requires m == was || Holds(m, was, e, now)
    ensures OldOrHolds(disks, n, was, e, now)
  {
    forall k | n <= k < |disks|
      ensures Valid(disks[k]) && (View(disks[k]) == was || Holds(View(disks[k]), was, e, now))
    {
      if k < |mid| {
        assert disks[k] == mid[k];
      }
    }
  }

  class Store {
    var files: Disk
    /** Every content the directory has had, newest last: what a crash can leave behind. */
    ghost var disks: seq<Disk>

    ghost predicate Open()
      reads this
    {
      Valid(files) && disks != [] && disks[|disks| - 1] == files
    }

    /** Opens whatever a previous process left. */
    constructor (left: Disk)
      requires Valid(left)
      ensures Open() && files == left && disks == [left]
    {
      files := left;
      disks := [left];
    }

    /** `os.WriteFile` of the temporary file, which is not atomic. */
    method WriteTmp(e: Event, fault: Fault) returns (ok: bool)
      requires Open()
      modifies this
      ensures Open() && View(files) == old(View(files))
      ensures ok <==> !fault.CreateFails? && !fault.WriteFails?
      ensures ok ==> TmpOf(e.jobId) in files && files[TmpOf(e.jobId)] == Whole(e)
      ensures old(disks) <= disks && MeansEither(disks, |old(disks)|, old(View(files)), old(View(files)))
    {
      if fault.CreateFails? {
        return false;
      }
      PutTmp(e.jobId, Torn);
      if fault.WriteFails? {
        return false;
      }
      PutTmp(e.jobId, Whole(e));
      return true;
    }

    /** The temporary file of a job now has this content. */
    method PutTmp(id: string, f: File)
      requires Open()
      modifies this
      ensures Open() && View(files) == old(View(files)) && TmpOf(id) in files && files[TmpOf(id)] == f
      ensures old(disks) <= disks && MeansEither(disks, |old(disks)|, View(files), View(files))
    {
      TmpIsInvisible(files, id, f);
      files := files[TmpOf(id) := f];
      disks := disks + [files];
    }

    /** `os.Rename` over the event's own name; on an error the temporary file is removed, if that works. */
    method RenameTmp(e: Event, fault: Fault) returns (ok: bool)
      requires Open()
      requires TmpOf(e.jobId) in files && files[TmpOf(e.jobId)] == Whole(e)
      modifies this
      ensures Open() && (ok <==> !fault.RenameFails?)
      ensures View(files) == if ok then old(View(files))[e.jobId := e] else old(View(files))
      ensures old(disks) <= disks && MeansEither(disks, |old(disks)|, View(files), View(files))
    {
      TmpIsInvisible(files, e.jobId, Torn);
      RenameIsUpdate(files, e);
      if fault.RenameFails? {
        if fault.removed {
          files := files - {TmpOf(e.jobId)};
          disks := disks + [files];
        }
        return false;
      }
      files := (files - {TmpOf(e.jobId)})[PathOf(e.jobId) := Whole(e)];
      disks := disks + [files];
      return true;
    }

    /**
      Records the event. Whatever fails and wherever a crash cuts it short, the directory stands
      for the old map or for the map with this event; it is the latter once `true` is returned.
    */
    method Enqueue(e: Event, now: int, fault: Fault) returns (ok: bool)
      requires Open()
      modifies this
      ensures Open() && old(disks) <= disks
      ensures ok <==> fault.NoFault?
      ensures if ok then Holds(View(files), old(View(files)), e, now) else View(files) == old(View(files))
      ensures OldOrHolds(disks, |old(disks)|, old(View(files)), e, now)
    {
      var stamped := if e.createdAt == 0 then e.(createdAt := now) else e;
      UpdateHolds(View(files), stamped, e, now);
      ok := WriteTmp(stamped, fault);
      ghost var mid := disks;
      if ok {
        ok := RenameTmp(stamped, fault);
      }
      OldThenNew(mid, disks, |old(disks)|, old(View(files)), View(files), e, now);
    }

    /**
      All pending events, oldest first: each readable entry of the map exactly once, never a
      temporary or corrupt file. `unreadable` are the names whose read fails.
    */
    method List(unreadable: set<string>) returns (events: seq<Event>)
      requires Open()
      ensures forall i, j :: 0 <= i < j < |events| ==> events[i].createdAt <= events[j].createdAt
      ensures forall e :: e in events <==>
                e.jobId in View(files) && View(files)[e.jobId] == e && PathOf(e.jobId) !in unreadable
      ensures forall i, j :: 0 <= i < j < |events| ==> events[i].jobId != events[j].jobId
    {
      var found: seq<Event> := [];
      var names := files.Keys;
      while names != {}
        invariant names <= files.Keys
        invariant forall e :: e in found <==>
                    && Listed(files, PathOf(e.jobId)) && files[PathOf(e.jobId)].event == e
                    && PathOf(e.jobId) !in unreadable && PathOf(e.jobId) !in names
        invariant forall i, j :: 0 <= i < j < |found| ==> found[i].jobId != found[j].jobId
        decreases names
      {
        var name :| name in names;
        if Listed(files, name) && name !in unreadable {
          found := found + [files[name].event];
        }
        names := names - {name};
      }
      var time := (e: Event) => e.createdAt;
      events := SortByKey(time, found);
      assert forall i :: 0 <= i < |events| ==> time(events[i]) == events[i].createdAt;
      SameMembers(events, found);
      DistinctSurvivesSorting(found, events);
    }

    /**
      Forgets a job's event; a missing file is no error, and a second call changes nothing. When
      the removal itself fails the directory is as before.
    */
    method Ack(id: string, removable: bool) returns (ok: bool)
      requires Open()
      modifies this
      ensures Open() && (ok <==> removable || PathOf(id) !in old(files))
      ensures View(files) == if ok then old(View(files)) - {id} else old(View(files))
      ensures old(disks) <= disks
      ensures MeansEither(disks, |old(disks)|, old(View(files)), View(files))
    {
      DropIsRemoval(files, id);
      if !removable && PathOf(id) in files {
        return false;
      }
      ok := true;
      files := files - {PathOf(id)};
      disks := disks + [files];
    }
  }

  lemma DistinctSurvivesSorting(xs: seq<Event>, ys: seq<Event>)
    requires multiset(xs) == multiset(ys)
    requires forall i, j :: 0 <= i < j < |xs| ==> xs[i].jobId != xs[j].jobId
    ensures forall i, j :: 0 <= i < j < |ys| ==> ys[i].jobId != ys[j].jobId
  {
    forall i, j | 0 <= i < j < |ys| ensures ys[i].jobId != ys[j].jobId {
      assert ys == ys[..j] + [ys[j]] + ys[j + 1..];
      assert ys[i] in multiset(ys[..j]) by { assert ys[i] == ys[..j][i]; }
      if ys[i] == ys[j] {
        assert multiset(ys)[ys[j]] >= 2;
        OnceEach(xs, ys[j]);
      } else {
        assert ys[i] in multiset(xs) && ys[j] in multiset(xs);
      }
    }
  }

  lemma {:induction false} OnceEach(xs: seq<Event>, e: Event)
    requires forall i, j :: 0 <= i < j < |xs| ==> xs[i].jobId != xs[j].jobId
    ensures multiset(xs)[e] <= 1
  {
    if xs != [] {
      var last := |xs| - 1;
      assert xs == xs[..last] + [xs[last]];
      OnceEach(xs[..last], e);
      assert e in multiset(xs[..last]) ==> e in xs[..last];
    }
  }
}
