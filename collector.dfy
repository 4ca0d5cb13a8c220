/**
 * `collect`: default the checkpoint of the persisted connector state in
 * place, run the reservation query, and aggregate the sub-query results into
 * the returned activities and the next state.
 */
module Collector {
  import opened Schema
  import opened Lodging

  /** The per-query activity lists joined into one, in query order. */
  function Flatten(rs: seq<FetchResult>): (all: seq<Option<Activity>>)
  {
    if rs == [] then [] else rs[0].activities + Flatten(rs[1..])
  }

  /** The activities of a mapped list with its skips dropped, in order. */
  function Present(xs: seq<Option<Activity>>): (r: seq<Activity>)
    ensures forall a :: a in r <==> Some(a) in xs
    ensures |r| == |xs| - SkipCount(xs)
  {
    if xs == [] then []
    else
      var rest := Present(xs[1..]);
      assert xs == [xs[0]] + xs[1..];
      if xs[0].Some? then [xs[0].value] + rest else rest
  }

  /** The skips removed by `Present` are exactly the `None` entries: filtering
      commutes with concatenation, so the order of what remains is kept. */
  lemma {:induction false} PresentAppend(xs: seq<Option<Activity>>, ys: seq<Option<Activity>>)
    ensures Present(xs + ys) == Present(xs) + Present(ys)
  {
    if xs == [] {
      assert xs + ys == ys;
    } else {
      assert (xs + ys)[1..] == xs[1..] + ys;
      PresentAppend(xs[1..], ys);
    }
  }

  /** The reference aggregation: each query's list with its nulls removed,
      concatenated in query order. */
  function PresentEach(rs: seq<FetchResult>): (kept: seq<Activity>)
  {
    if rs == [] then [] else Present(rs[0].activities) + PresentEach(rs[1..])
  }

  /** Flattening then filtering is the in-order concatenation of the
      per-query lists with exactly their nulls removed. */
  lemma {:induction false} FlattenThenFilter(rs: seq<FetchResult>)
    ensures Present(Flatten(rs)) == PresentEach(rs)
  {
    if rs != [] {
      PresentAppend(rs[0].activities, Flatten(rs[1..]));
      FlattenThenFilter(rs[1..]);
    }
  }

  /** An activity is returned exactly when some query mapped some record to it. */
  lemma {:induction false} FlattenMembership(rs: seq<FetchResult>, a: Activity)
    ensures Some(a) in Flatten(rs) <==>
      exists i, j :: 0 <= i < |rs| && 0 <= j < |rs[i].activities| && rs[i].activities[j] == Some(a)
  {
    if rs != [] {
      FlattenMembership(rs[1..], a);
      if Some(a) in rs[0].activities {
        var j :| 0 <= j < |rs[0].activities| && rs[0].activities[j] == Some(a);
        assert rs[0].activities[j] == Some(a);
      }
      if exists i, j :: 0 <= i < |rs| && 0 <= j < |rs[i].activities| && rs[i].activities[j] == Some(a) {
        var i, j :| 0 <= i < |rs| && 0 <= j < |rs[i].activities| && rs[i].activities[j] == Some(a);
        if i > 0 {
          assert rs[1..][i - 1].activities[j] == Some(a);
        }
      }
      if Some(a) in Flatten(rs[1..]) {
        var i, j :| 0 <= i < |rs[1..]| && 0 <= j < |rs[1..][i].activities| && rs[1..][i].activities[j] == Some(a);
        assert rs[i + 1].activities[j] == Some(a);
      }
    }
  }

  predicate AllTimestamped(rs: seq<FetchResult>)
  {
    forall i :: 0 <= i < |rs| ==> rs[i].modifiedSince.Some?
  }

  /** `Math.max(...)` over the reported timestamps: no smaller than any of
      them, and equal to one of them. */
  function MaxTimestamp(rs: seq<FetchResult>): (m: int)
    requires |rs| > 0 && AllTimestamped(rs)
    ensures forall i :: 0 <= i < |rs| ==> rs[i].modifiedSince.value <= m
    ensures exists i :: 0 <= i < |rs| && rs[i].modifiedSince.value == m
  {
    if |rs| == 1 then rs[0].modifiedSince.value
    else
      var rest := MaxTimestamp(rs[1..]);
      assert forall i :: 1 <= i < |rs| ==> rs[i] == rs[1..][i - 1];
      if rs[0].modifiedSince.value >= rest then rs[0].modifiedSince.value else rest
  }

  /** Submitting the same batch of answers twice derives the same checkpoint. */
  lemma ResubmittedBatchSameCheckpoint(rs: seq<FetchResult>)
    requires |rs| > 0 && AllTimestamped(rs)
    ensures AllTimestamped(rs + rs) && MaxTimestamp(rs + rs) == MaxTimestamp(rs)
  {
    var m, mm := MaxTimestamp(rs), MaxTimestamp(rs + rs);
    var i :| 0 <= i < |rs + rs| && (rs + rs)[i].modifiedSince.value == mm;
    if i >= |rs| {
      assert (rs + rs)[i] == rs[i - |rs|];
    }
    var k :| 0 <= k < |rs| && rs[k].modifiedSince.value == m;
    assert (rs + rs)[k] == rs[k];
  }

  /** The checkpoint the query is issued with: "now" when the persisted one is
      absent or falsy (`0`), otherwise the persisted one. */
  function StartCheckpoint(lastModifiedSince: Option<int>, now: int): (c: int)
    ensures lastModifiedSince == None || lastModifiedSince == Some(0) ==> c == now
    ensures lastModifiedSince.Some? && lastModifiedSince.value != 0 ==> c == lastModifiedSince.value
  {
    if lastModifiedSince == None || lastModifiedSince == Some(0) then now else lastModifiedSince.value
  }

  /** The persisted connector state as a value: the credentials, the
      checkpoint, the layout version and every other field it holds. */
  datatype StateRecord = StateRecord(
    username: Option<string>,
    password: Option<string>,
    lastModifiedSince: Option<int>,
    version: Option<int>,
    others: map<string, string>)

  datatype CollectResult = CollectResult(activities: seq<Activity>, state: StateRecord)

  /** The returned activities and the next state: a copy of `prior` with the
      new checkpoint and the version stamped. */
  function Aggregate(prior: StateRecord, rs: seq<FetchResult>): (r: CollectResult)
    requires |rs| > 0 && AllTimestamped(rs)
    ensures r.activities == PresentEach(rs)
    ensures r.state.username == prior.username && r.state.password == prior.password
    ensures r.state.others == prior.others
    ensures r.state.version == Some(VERSION)
    ensures r.state.lastModifiedSince.Some?
    ensures forall i :: 0 <= i < |rs| ==> rs[i].modifiedSince.value <= r.state.lastModifiedSince.value
    ensures exists i :: 0 <= i < |rs| && rs[i].modifiedSince == r.state.lastModifiedSince
  {
    FlattenThenFilter(rs);
    var m := MaxTimestamp(rs);
    CollectResult(Present(Flatten(rs)), prior.(lastModifiedSince := Some(m), version := Some(VERSION)))
  }

  /** Collecting the same answers again from the state a collect returned
      gives the same activities and the same state. */
  lemma RepeatedCollectSameResult(prior: StateRecord, rs: seq<FetchResult>)
    requires |rs| > 0 && AllTimestamped(rs)
    ensures Aggregate(Aggregate(prior, rs).state, rs) == Aggregate(prior, rs)
  {
  }

  /** A batch whose pages all came from `JSON.parse` returns no activity when
      the records are mapped as written. */
  lemma {:induction false} JsonBatchCollectsNothing(prior: StateRecord, pages: seq<Page>)
    requires |pages| > 0
    requires forall p :: p in pages ==> PageFromJson(p) && p.timestamp.Some?
    ensures var rs := seq(|pages|, i requires 0 <= i < |pages| => FetchLodging(pages[i]));
      AllTimestamped(rs) && Aggregate(prior, rs).activities == []
  {
    var rs := seq(|pages|, i requires 0 <= i < |pages| => FetchLodging(pages[i]));
    forall i | 0 <= i < |rs|
      ensures Present(rs[i].activities) == []
    {
      JsonPageEmitsNothing(pages[i]);
      OnlySkipsLeaveNothing(rs[i].activities);
    }
    NoneLeft(rs);
  }

  lemma {:induction false} OnlySkipsLeaveNothing(xs: seq<Option<Activity>>)
    requires forall x :: x in xs ==> x.None?
    ensures Present(xs) == []
  {
    if xs != [] {
      assert xs[0] in xs;
      OnlySkipsLeaveNothing(xs[1..]);
    }
  }

  lemma {:induction false} NoneLeft(rs: seq<FetchResult>)
    requires forall i :: 0 <= i < |rs| ==> Present(rs[i].activities) == []
    ensures PresentEach(rs) == []
  {
    if rs != [] {
      assert forall i :: 0 <= i < |rs[1..]| ==> rs[1..][i] == rs[i + 1];
      NoneLeft(rs[1..]);
    }
  }

  /** The persisted state, which `collect` updates in place. */
  class ConnectorState {
    var username: Option<string>
    var password: Option<string>
    var lastModifiedSince: Option<int>
    var version: Option<int>
    var others: map<string, string>

    /** The default `state = {}`. */
    constructor ()
      ensures Snapshot() == StateRecord(None, None, None, None, map[])
    {
      username, password, lastModifiedSince, version, others := None, None, None, None, map[];
    }

    function Snapshot(): StateRecord
      reads this
    {
      StateRecord(username, password, lastModifiedSince, version, others)
    }

    /** The body of `collect` once the vendor call is given as `fetch`, the
        mapped answer for a checkpoint: the checkpoint is defaulted in place
        to `now`, the one query is issued with it, and its answer is
        aggregated into the result; `warnings` is what the logger receives. */
    method CollectWith(now: int, fetch: int -> FetchResult)
      returns (r: CollectResult, warnings: seq<Warning>)
      requires fetch(StartCheckpoint(lastModifiedSince, now)).modifiedSince.Some?
      modifies this
      ensures lastModifiedSince == Some(StartCheckpoint(old(lastModifiedSince), now))
      ensures username == old(username) && password == old(password)
      ensures version == old(version) && others == old(others)
      ensures var answer := fetch(StartCheckpoint(old(lastModifiedSince), now));
        && r == Aggregate(old(Snapshot()), [answer])
        && r.state.lastModifiedSince == answer.modifiedSince
        && warnings == answer.warnings
    {
      if lastModifiedSince == None || lastModifiedSince == Some(0) {
        lastModifiedSince := Some(now);
      }
      var answer := fetch(lastModifiedSince.value);
      var allResults := [answer];
      r := CollectResult(
        Present(Flatten(allResults)),
        Snapshot().(lastModifiedSince := Some(MaxTimestamp(allResults)), version := Some(VERSION)));
      warnings := answer.warnings;
    }

    /** `collect` as written, with the vendor query given as `query` (the
        parsed answer for a checkpoint) and the clock read as `now`: each
        record is mapped by `NormalizeRecord`. */
    method Collect(now: int, query: int -> Page)
      returns (r: CollectResult, warnings: seq<Warning>)
      requires query(StartCheckpoint(lastModifiedSince, now)).timestamp.Some?
      modifies this
      ensures lastModifiedSince == Some(StartCheckpoint(old(lastModifiedSince), now))
      ensures username == old(username) && password == old(password)
      ensures version == old(version) && others == old(others)
      ensures var answer := FetchLodging(query(StartCheckpoint(old(lastModifiedSince), now)));
        && r == Aggregate(old(Snapshot()), [answer])
        && r.state.lastModifiedSince == answer.modifiedSince
        && warnings == answer.warnings
      ensures PageFromJson(query(StartCheckpoint(old(lastModifiedSince), now))) ==> r.activities == []
    {
      ghost var page := query(StartCheckpoint(lastModifiedSince, now));
      ghost var prior := Snapshot();
      r, warnings := CollectWith(now, c => FetchLodging(query(c)));
      if PageFromJson(page) {
        JsonBatchCollectsNothing(prior, [page]);
        assert [FetchLodging(page)] == seq(1, i requires 0 <= i < 1 => FetchLodging([page][i]));
      }
    }

    /** `collect` with the date texts of each record converted through
        `parseDate` before the record is mapped. */
    method CollectCorrected(now: int, query: int -> Page, parseDate: string -> Instant)
      returns (r: CollectResult, warnings: seq<Warning>)
      requires query(StartCheckpoint(lastModifiedSince, now)).timestamp.Some?
      modifies this
      ensures lastModifiedSince == Some(StartCheckpoint(old(lastModifiedSince), now))
      ensures username == old(username) && password == old(password)
      ensures version == old(version) && others == old(others)
      ensures var answer := FetchLodgingRevived(query(StartCheckpoint(old(lastModifiedSince), now)), parseDate);
        && r == Aggregate(old(Snapshot()), [answer])
        && r.state.lastModifiedSince == answer.modifiedSince
        && warnings == answer.warnings
    {
      r, warnings := CollectWith(now, c => FetchLodgingRevived(query(c), parseDate));
    }
  }
}
