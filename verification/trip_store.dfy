/** The trip store (src/stores/trip.ts): an ordered list of trips, one focused
    trip and a `loading` flag. Every operation awaits its remote call before it
    touches the list or the focus, and clears `loading` however the call settles.
    The outcome of the remote call is a parameter of each operation. */
module Trips {
  import opened Wrappers
  import opened Api

  /** The ids of a list of trips. */
  function Ids(s: seq<Trip>): set<int> {
    set t | t in s :: t.id
  }

  /** No two trips of the list share an id. */
  ghost predicate UniqueIds(s: seq<Trip>) {
    forall i, j :: 0 <= i < j < |s| ==> s[i].id != s[j].id
  }

  /** The focused trip never diverges from the list element with its id. */
  ghost predicate FocusAgrees(s: seq<Trip>, focus: Option<Trip>) {
    focus.Some? ==> forall i :: 0 <= i < |s| && s[i].id == focus.value.id ==> s[i] == focus.value
  }

  /** The consistency the store is meant to keep between the list and the focus. */
  ghost predicate Coherent(s: seq<Trip>, focus: Option<Trip>) {
    UniqueIds(s) && FocusAgrees(s, focus)
  }

  /** `id` is used neither by the list nor by the focused trip. */
  ghost predicate IdUnused(s: seq<Trip>, focus: Option<Trip>, id: int) {
    id !in Ids(s) && (focus.Some? ==> focus.value.id != id)
  }

  /** Index `j` holds the first trip of `s` whose id is `id`. */
  ghost predicate IsFirstMatch(s: seq<Trip>, id: int, j: int) {
    0 <= j < |s| && s[j].id == id && forall k :: 0 <= k < j ==> s[k].id != id
  }

  /** `after` is `before` with only its first trip of id `id` replaced by `t`:
      same length, every other position kept, and no change when no trip has `id`. */
  ghost predicate ReplacedFirstMatch(before: seq<Trip>, after: seq<Trip>, id: int, t: Trip) {
    |after| == |before| &&
    forall j :: 0 <= j < |before| ==> after[j] == if IsFirstMatch(before, id, j) then t else before[j]
  }

  /** `Array.prototype.findIndex` with the predicate `t.id === id`: the first
      index holding that id, or -1 when there is none. */
  function FindIndex(s: seq<Trip>, id: int): (i: int)
    ensures -1 <= i < |s|
    ensures i != -1 ==> IsFirstMatch(s, id, i)
    ensures i == -1 <==> id !in Ids(s)
  {
    if |s| == 0 then -1
    else if s[0].id == id then 0
    else
      var k := FindIndex(s[1..], id);
      assert Ids(s) == {s[0].id} + Ids(s[1..]);
      if k == -1 then -1 else k + 1
  }

  /** `trips.filter((t) => t.id !== id)`: every trip it keeps comes from the
      list and has another id. */
  function Without(s: seq<Trip>, id: int): (r: seq<Trip>)
    ensures forall t :: t in r ==> t in s && t.id != id
    ensures |r| <= |s|
  {
    if |s| == 0 then []
    else
      var rest := Without(s[1..], id);
      assert s == [s[0]] + s[1..];
      if s[0].id == id then rest else [s[0]] + rest
  }

  /** The filter keeps every trip with another id exactly as often as it occurred,
      so a trip is kept iff it was in the list with another id. */
  lemma {:induction false} WithoutKeepsOthers(s: seq<Trip>, id: int)
    ensures forall t: Trip :: t.id != id ==> multiset(Without(s, id))[t] == multiset(s)[t]
    ensures forall t :: t in Without(s, id) <==> t in s && t.id != id
  {
    if |s| > 0 {
      WithoutKeepsOthers(s[1..], id);
      assert s == [s[0]] + s[1..];
      assert multiset(s) == multiset{s[0]} + multiset(s[1..]);
    }
  }

  /** The filter distributes over concatenation, so the kept trips stay in their
      original relative order. */
  lemma {:induction false} WithoutConcat(a: seq<Trip>, b: seq<Trip>, id: int)
    ensures Without(a + b, id) == Without(a, id) + Without(b, id)
  {
    if |a| == 0 {
      assert a + b == b;
    } else {
      assert (a + b)[1..] == a[1..] + b;
      WithoutConcat(a[1..], b, id);
    }
  }

  /** Removing an id that no trip has leaves the list as it is. */
  lemma {:induction false} WithoutAbsent(s: seq<Trip>, id: int)
    requires id !in Ids(s)
    ensures Without(s, id) == s
  {
    if |s| > 0 {
      assert s == [s[0]] + s[1..];
      assert Ids(s) == {s[0].id} + Ids(s[1..]);
      WithoutAbsent(s[1..], id);
    }
  }

  /** The head of a list with unique ids does not reappear in its tail. */
  lemma UniqueTail(s: seq<Trip>)
    requires |s| > 0 && UniqueIds(s)
    ensures UniqueIds(s[1..]) && s[0].id !in Ids(s[1..])
  {
    forall t | t in s[1..] ensures t.id != s[0].id {
      var k :| 0 <= k < |s[1..]| && s[1..][k] == t;
      assert s[k + 1] == t;
    }
  }

  /** A trip whose id is new may be put in front of a list with unique ids. */
  lemma UniqueCons(t: Trip, r: seq<Trip>)
    requires UniqueIds(r) && t.id !in Ids(r)
    ensures UniqueIds([t] + r)
  {
    var r' := [t] + r;
    forall i, j | 0 <= i < j < |r'| ensures r'[i].id != r'[j].id {
      assert r'[j] == r[j - 1] && r'[j] in r;
      if i > 0 {
        assert r'[i] == r[i - 1];
      }
    }
  }

  /** Filtering keeps ids unique. */
  lemma {:induction false} WithoutKeepsUnique(s: seq<Trip>, id: int)
    requires UniqueIds(s)
    ensures UniqueIds(Without(s, id))
  {
    if |s| > 0 {
      UniqueTail(s);
      WithoutKeepsUnique(s[1..], id);
      var rest := Without(s[1..], id);
      if s[0].id != id {
        assert s[0].id !in Ids(rest);
        UniqueCons(s[0], rest);
      }
    }
  }

  /** Prepending a trip with an id nobody uses, focused or not, keeps the store coherent. */
  lemma PrependKeepsCoherent(s: seq<Trip>, focus: Option<Trip>, t: Trip, focus': Option<Trip>)
    requires Coherent(s, focus) && IdUnused(s, focus, t.id)
    requires focus' == focus || focus' == Some(t)
    ensures Coherent([t] + s, focus')
  {
    var s' := [t] + s;
    forall i | 1 <= i < |s'| ensures s'[i].id != t.id {
      assert s'[i] == s[i - 1];
    }
  }

  /** Replacing the first match by a trip with the same id, and the focus when
      it has that id, keeps the store coherent. */
  lemma ReplaceKeepsCoherent(s: seq<Trip>, s': seq<Trip>, focus: Option<Trip>, id: int, t: Trip)
    requires Coherent(s, focus) && t.id == id && ReplacedFirstMatch(s, s', id, t)
    ensures Coherent(s', if focus.Some? && focus.value.id == id then Some(t) else focus)
  {
    forall i, j | 0 <= i < j < |s'| ensures s'[i].id != s'[j].id {
      assert s'[i].id == s[i].id && s'[j].id == s[j].id;
    }
  }

  /** Removing an id, and dropping the focus when it has that id, keeps the store coherent. */
  lemma {:induction false} WithoutKeepsCoherent(s: seq<Trip>, focus: Option<Trip>, id: int)
    requires Coherent(s, focus)
    ensures Coherent(Without(s, id), if focus.Some? && focus.value.id == id then None else focus)
  {
    WithoutKeepsUnique(s, id);
    var r := Without(s, id);
    if focus.Some? && focus.value.id != id {
      forall i | 0 <= i < |r| && r[i].id == focus.value.id ensures r[i] == focus.value {
        assert r[i] in s;
      }
    }
  }

  /** A remote call issued by the store, with the value `loading` had when it was issued. */
  datatype Issued = Issued(call: TripCall, loading: bool)

  class TripStore {
    var trips: seq<Trip>
    var currentTrip: Option<Trip>
    var loading: bool
    /** Every remote call the store has issued, oldest first. */
    ghost var requests: seq<Issued>

    constructor ()
      ensures trips == [] && currentTrip == None && !loading && requests == []
    {
      trips := [];
      currentTrip := None;
      loading := false;
      requests := [];
    }

    ghost predicate IsCoherent()
      reads this
    {
      Coherent(trips, currentTrip)
    }

    /** fetchTrips: the list becomes exactly the server's list, in the server's order. */
    method FetchTrips(response: Result<seq<Trip>>) returns (outcome: Result<()>)
      modifies this
      ensures !loading && requests == old(requests) + [Issued(ListTrips, true)]
      ensures currentTrip == old(currentTrip)
      ensures response.Success? ==> trips == response.value && outcome == Success(())
      ensures response.Failure? ==> trips == old(trips) && outcome == Failure(response.error)
    {
      loading := true;
      requests := requests + [Issued(ListTrips, loading)];
      match response {
        case Failure(e) =>
          outcome := Failure(e);
        case Success(list) =>
          trips := list;
          outcome := Success(());
      }
      loading := false;
    }

    /** fetchTrip: the focus becomes the server's trip, which is also returned. */
    method FetchTrip(id: int, response: Result<Trip>) returns (outcome: Result<Trip>)
      modifies this
      ensures !loading && requests == old(requests) + [Issued(GetTrip(id), true)]
      ensures trips == old(trips) && outcome == response
      ensures currentTrip == if response.Success? then Some(response.value) else old(currentTrip)
    {
      loading := true;
      requests := requests + [Issued(GetTrip(id), loading)];
      match response {
        case Failure(e) =>
          outcome := Failure(e);
        case Success(trip) =>
          currentTrip := Some(trip);
          outcome := Success(trip);
      }
      loading := false;
    }

    /** aiGenerateTrip: the generated trip is prepended to the list and focused. */
    method AiGenerateTrip(request: TripGenerateRequest, response: Result<Trip>) returns (outcome: Result<Trip>)
      modifies this
      ensures !loading && requests == old(requests) + [Issued(GenerateTrip(request), true)]
      ensures outcome == response
      ensures response.Success? ==> trips == [response.value] + old(trips) && currentTrip == Some(response.value)
      ensures response.Failure? ==> trips == old(trips) && currentTrip == old(currentTrip)
      ensures old(IsCoherent()) && response.Success? && IdUnused(old(trips), old(currentTrip), response.value.id)
              ==> IsCoherent()
    {
      loading := true;
      requests := requests + [Issued(GenerateTrip(request), loading)];
      match response {
        case Failure(e) =>
          outcome := Failure(e);
        case Success(trip) =>
          if IsCoherent() && IdUnused(trips, currentTrip, trip.id) {
            PrependKeepsCoherent(trips, currentTrip, trip, Some(trip));
          }
          trips := [trip] + trips;
          currentTrip := Some(trip);
          outcome := Success(trip);
      }
      loading := false;
    }

    /** addTrip: the created trip is prepended; the focus is left alone. */
    method AddTrip(data: TripCreate, response: Result<Trip>) returns (outcome: Result<Trip>)
      modifies this
      ensures !loading && requests == old(requests) + [Issued(CreateTrip(data), true)]
      ensures outcome == response && currentTrip == old(currentTrip)
      ensures trips == if response.Success? then [response.value] + old(trips) else old(trips)
      ensures old(IsCoherent()) && response.Success? && IdUnused(old(trips), old(currentTrip), response.value.id)
              ==> IsCoherent()
    {
      loading := true;
      requests := requests + [Issued(CreateTrip(data), loading)];
      match response {
        case Failure(e) =>
          outcome := Failure(e);
        case Success(trip) =>
          if IsCoherent() && IdUnused(trips, currentTrip, trip.id) {
            PrependKeepsCoherent(trips, currentTrip, trip, currentTrip);
          }
          trips := [trip] + trips;
          outcome := Success(trip);
      }
      loading := false;
    }

    /** modifyTrip: the server's trip replaces the first list element with the
        requested id, and the focus when the focus has that id. */
    method ModifyTrip(id: int, patch: TripUpdate, response: Result<Trip>) returns (outcome: Result<Trip>)
      modifies this
      ensures !loading && requests == old(requests) + [Issued(UpdateTrip(id, patch), true)]
      ensures outcome == response
      ensures response.Success? ==> ReplacedFirstMatch(old(trips), trips, id, response.value)
      ensures response.Success? ==>
        currentTrip == if old(currentTrip).Some? && old(currentTrip).value.id == id then Some(response.value) else old(currentTrip)
      ensures response.Failure? ==> trips == old(trips) && currentTrip == old(currentTrip)
      ensures old(IsCoherent()) && response.Success? && response.value.id == id ==> IsCoherent()
    {
      loading := true;
      requests := requests + [Issued(UpdateTrip(id, patch), loading)];
      match response {
        case Failure(e) =>
          outcome := Failure(e);
        case Success(trip) =>
          ghost var before, focus := trips, currentTrip;
          var index := FindIndex(trips, id);
          if index != -1 {
            trips := trips[index := trip];
          }
          forall j | 0 <= j < |before| ensures trips[j] == if IsFirstMatch(before, id, j) then trip else before[j] {
            if IsFirstMatch(before, id, j) {
              assert index != -1 && !(j < index) && !(index < j);
            }
          }
          if currentTrip.Some? && currentTrip.value.id == id {
            currentTrip := Some(trip);
          }
          if Coherent(before, focus) && trip.id == id {
            ReplaceKeepsCoherent(before, trips, focus, id, trip);
          }
          outcome := Success(trip);
      }
      loading := false;
    }

    /** removeTrip: on success every trip with the id leaves the list, and the
        focus is cleared when it has that id. */
    method RemoveTrip(id: int, response: Result<()>) returns (outcome: Result<()>)
      modifies this
      ensures !loading && requests == old(requests) + [Issued(DeleteTrip(id), true)]
      ensures outcome == response
      ensures response.Success? ==> trips == Without(old(trips), id)
      ensures response.Success? ==>
        currentTrip == if old(currentTrip).Some? && old(currentTrip).value.id == id then None else old(currentTrip)
      ensures response.Failure? ==> trips == old(trips) && currentTrip == old(currentTrip)
      ensures old(IsCoherent()) ==> IsCoherent()
    {
      loading := true;
      requests := requests + [Issued(DeleteTrip(id), loading)];
      match response {
        case Failure(e) =>
          outcome := Failure(e);
        case Success(u) =>
          if IsCoherent() {
            WithoutKeepsCoherent(trips, currentTrip, id);
          }
          trips := Without(trips, id);
          if currentTrip.Some? && currentTrip.value.id == id {
            currentTrip := None;
          }
          outcome := Success(u);
      }
      loading := false;
    }
  }

  /** fetchTrip replaces the focus but not the list, so a server copy that has
      changed since the list was fetched leaves the focus diverging from the list
      element with its id, from any state of the store. */
  method FetchTripDiverges(store: TripStore, listed: Trip, fetched: Trip)
    requires fetched.id == listed.id && fetched != listed
    modifies store
    ensures store.trips == [listed] && store.currentTrip == Some(fetched)
    ensures !store.IsCoherent()
  {
    var _ := store.FetchTrips(Success([listed]));
    var _ := store.FetchTrip(listed.id, Success(fetched));
    assert store.trips[0].id == fetched.id;
  }
}
