/** The landing page's live figures: the "created" counter that grows on a
    timer, and the Wall of Lovers list that the fetched recent greetings are
    merged into. */
module LandingFeed {
  import opened Wrappers
  import opened JsText

  /** One timer tick of the live counter. `draw` is the value of
      `Math.random()`, so the count grows by one, two or three. */
  function CounterTick(count: int, draw: real): (r: int)
    requires 0.0 <= draw < 1.0
    ensures count + 1 <= r <= count + 3
  {
    count + (draw * 3.0).Floor + 1
  }

  /** Every increment of one to three is produced by some draw. */
  lemma CounterTickReachesEachStep(count: int, k: int)
    requires 1 <= k <= 3
    ensures CounterTick(count, (k - 1) as real / 3.0) == count + k
  {
    assert ((k - 1) as real / 3.0) * 3.0 == (k - 1) as real;
  }

  /** All draws of `Math.random()` lie in [0, 1). */
  predicate ValidDraws(draws: seq<real>)
  {
    forall i | 0 <= i < |draws| :: 0.0 <= draws[i] < 1.0
  }

  /** The counter after one tick per draw. */
  function CounterAfter(count: int, draws: seq<real>): int
    requires ValidDraws(draws)
    decreases |draws|
  {
    if draws == [] then count else CounterAfter(CounterTick(count, draws[0]), draws[1..])
  }

  /** After `n` ticks the counter has grown by at least `n` and at most
      `3 n`, so it strictly increases on every tick. */
  lemma {:induction false} CounterGrowth(count: int, draws: seq<real>)
    requires ValidDraws(draws)
    ensures count + |draws| <= CounterAfter(count, draws) <= count + 3 * |draws|
    decreases |draws|
  {
    if draws != [] {
      CounterGrowth(CounterTick(count, draws[0]), draws[1..]);
    }
  }

  /** One row of the wall. */
  datatype Lover = Lover(sender: string, receiver: string, location: string, time: string)

  /** One record of the wall endpoint's `data` list. */
  datatype WallRecord = WallRecord(
    senderName: string, recipientName: string, senderLocation: Option<string>, timeAgo: string)

  /** The wall's capacity. */
  const MaxWall := 15

  /** The towns a record without a location is shown in. */
  const Towns: seq<string> :=
    ["Nairobi", "Mombasa", "Kisumu", "Nakuru", "Eldoret", "Thika", "Kiambu", "Machakos"]

  /** The wall the page starts with, shown until real records arrive. */
  const InitialWall: seq<Lover> := [
    Lover("Kevin", "Aisha", "Nairobi", "2m"),
    Lover("Brian", "Grace", "Kisumu", "5m"),
    Lover("David", "Sarah", "Mombasa", "8m"),
    Lover("James", "Mary", "Nakuru", "12m"),
    Lover("Peter", "Lucy", "Eldoret", "15m"),
    Lover("John", "Anna", "Thika", "18m"),
    Lover("Mark", "Jane", "Nairobi", "22m"),
    Lover("Paul", "Ruth", "Kisumu", "25m")]

  /** A record as a wall row: its own location when it has a non-empty one,
      otherwise the town `draw` picks. */
  function ToLover(v: WallRecord, draw: real): (r: Lover)
    requires 0.0 <= draw < 1.0
    ensures r.sender == v.senderName && r.receiver == v.recipientName && r.time == v.timeAgo
    ensures v.senderLocation.Some? && Truthy(v.senderLocation.value) ==> r.location == v.senderLocation.value
    ensures !(v.senderLocation.Some? && Truthy(v.senderLocation.value)) ==> r.location in Towns
    ensures Truthy(r.location)
  {
    var town := (draw * 8.0).Floor;
    var location := if v.senderLocation.Some? && v.senderLocation.value != "" then v.senderLocation.value
                    else Towns[town];
    Lover(v.senderName, v.recipientName, location, v.timeAgo)
  }

  /** All fetched records as rows, one draw each. */
  function ToLovers(data: seq<WallRecord>, draws: seq<real>): (r: seq<Lover>)
    requires |draws| == |data| && ValidDraws(draws)
    ensures |r| == |data|
    ensures forall i | 0 <= i < |r| :: r[i] == ToLover(data[i], draws[i])
  {
    seq(|data|, i requires 0 <= i < |data| => ToLover(data[i], draws[i]))
  }

  /** The merge: when the reply carries records, they go in front of the
      current rows and the list is cut to the capacity; a missing or empty
      reply leaves the wall alone. `fetched` is `None` when the request
      failed or the reply has no `data` list. */
  function MergeWall(prev: seq<Lover>, fetched: Option<seq<WallRecord>>, draws: seq<real>): (r: seq<Lover>)
    requires fetched.Some? ==> |draws| == |fetched.value| && ValidDraws(draws)
    ensures fetched.None? || fetched.value == [] ==> r == prev
  {
    if fetched.Some? && |fetched.value| > 0 then
      var merged := ToLovers(fetched.value, draws) + prev;
      merged[..if |merged| < MaxWall then |merged| else MaxWall]
    else prev
  }

  /** The rows the wall may hold: at most fifteen, each with a location. */
  predicate WallValid(w: seq<Lover>)
  {
    |w| <= MaxWall && forall i | 0 <= i < |w| :: Truthy(w[i].location)
  }

  lemma InitialWallValid()
    ensures WallValid(InitialWall)
  {
  }

  /** The merge keeps the wall valid, puts the fetched rows first in their
      own order, keeps the older rows after them in their order, and drops
      only what falls past the capacity. */
  lemma MergeWallSpec(prev: seq<Lover>, data: seq<WallRecord>, draws: seq<real>)
    requires |draws| == |data| && ValidDraws(draws) && |data| > 0
    ensures var r := MergeWall(prev, Some(data), draws);
      && |r| == (if |data| + |prev| < MaxWall then |data| + |prev| else MaxWall)
      && (forall i | 0 <= i < |r| && i < |data| :: r[i] == ToLover(data[i], draws[i]))
      && (forall i | |data| <= i < |r| :: r[i] == prev[i - |data|])
      && (WallValid(prev) ==> WallValid(r))
  {
    var rows := ToLovers(data, draws);
    var merged := rows + prev;
    var r := MergeWall(prev, Some(data), draws);
    assert forall i | 0 <= i < |r| :: r[i] == merged[i];
    assert forall i | 0 <= i < |rows| :: Truthy(rows[i].location);
  }

  /** Starting from the built-in wall, any series of replies leaves a valid
      wall. */
  lemma {:induction false} MergesKeepWallValid(
    prev: seq<Lover>, replies: seq<Option<seq<WallRecord>>>, draws: seq<seq<real>>)
    requires WallValid(prev)
    requires |draws| == |replies|
    requires forall i | 0 <= i < |replies| ::
      replies[i].Some? ==> |draws[i]| == |replies[i].value| && ValidDraws(draws[i])
    ensures WallValid(MergeAll(prev, replies, draws))
    decreases |replies|
  {
    if replies != [] {
      var next := MergeWall(prev, replies[0], draws[0]);
      if replies[0].Some? && replies[0].value != [] {
        MergeWallSpec(prev, replies[0].value, draws[0]);
      }
      MergesKeepWallValid(next, replies[1..], draws[1..]);
    }
  }

  /** The wall after a series of replies. */
  function MergeAll(prev: seq<Lover>, replies: seq<Option<seq<WallRecord>>>, draws: seq<seq<real>>): seq<Lover>
    requires |draws| == |replies|
    requires forall i | 0 <= i < |replies| ::
      replies[i].Some? ==> |draws[i]| == |replies[i].value| && ValidDraws(draws[i])
    decreases |replies|
  {
    if replies == [] then prev
    else MergeAll(MergeWall(prev, replies[0], draws[0]), replies[1..], draws[1..])
  }
}
