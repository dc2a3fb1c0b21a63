/** What the retry cap of the offline queue means for one row: how often it is posted, and
    what has happened when it is gone. */
module Retries {
  import opened OfflineQueue

  /** The place of a row in the table, or its length if there is none. */
  function Index<P>(rows: seq<Row<P>>, id: nat): (i: nat)
    ensures i <= |rows| && (i < |rows| ==> rows[i].id == id)
  {
    if rows == [] || rows[0].id == id then 0 else 1 + Index(rows[1..], id)
  }

  /** The round posts the row. */
  predicate Posts<P>(t: Table<P>, round: Round<P>, id: nat) {
    Index(Started(t, round).rows, id) < Batch(Started(t, round))
  }

  /** If the round posts the row, the post does not succeed. */
  predicate Fails<P>(t: Table<P>, round: Round<P>, id: nat) {
    Posts(t, round, id) ==>
      var j := Index(Started(t, round).rows, id);
      !Delivered(Started(t, round).rows[j], round.turns(j).reply)
  }

  ghost predicate AllFail<P>(t: Table<P>, rounds: seq<Round<P>>, id: nat)
    decreases |rounds|
  {
    rounds != [] ==> Fails(t, rounds[0], id) && AllFail(OneRound(t, rounds[0]), rounds[1..], id)
  }

  function TimesPosted<P>(t: Table<P>, rounds: seq<Round<P>>, id: nat): nat
    decreases |rounds|
  {
    if rounds == [] then 0
    else (if Posts(t, rounds[0], id) then 1 else 0) + TimesPosted(OneRound(t, rounds[0]), rounds[1..], id)
  }

  lemma {:induction false} IndexFound<P>(rows: seq<Row<P>>, i: nat)
    requires i < |rows| && Ordered(rows)
    ensures Index(rows, rows[i].id) == i
  {
    if i > 0 {
      assert rows[0].id < rows[i].id;
      IndexFound(rows[1..], i - 1);
    }
  }

  lemma {:induction false} SurvivorAt<P>(batch: seq<Row<P>>, turns: nat -> Turn<P>, from: nat, j: nat)
    requires j < |batch|
    ensures forall r :: r in Left(batch[j], turns(from + j).reply) ==> r in Survivors(batch, turns, from)
  {
    if j > 0 {
      SurvivorAt(batch[1..], turns, from + 1, j - 1);
    }
  }

  lemma {:induction false} SurvivorFrom<P>(batch: seq<Row<P>>, turns: nat -> Turn<P>, from: nat, r: Row<P>)
    returns (j: nat)
    requires r in Survivors(batch, turns, from)
    ensures j < |batch| && r in Left(batch[j], turns(from + j).reply)
  {
    if r in Left(batch[0], turns(from).reply) {
      j := 0;
    } else {
      var k := SurvivorFrom(batch[1..], turns, from + 1, r);
      j := k + 1;
    }
  }

  /** A posted row keeps its place with one more attempt, or is gone after the tenth. */
  lemma PostedRow<P>(t: Table<P>, round: Round<P>, i: nat)
    requires Valid(t) && i < |t.rows| && Fails(t, round, t.rows[i].id) && Posts(t, round, t.rows[i].id)
    ensures var row := t.rows[i]; var u := OneRound(t, round);
            if row.attempts + 1 < MAX_ATTEMPTS then row.(attempts := row.attempts + 1) in u.rows
                else !Present(u, row.id)
  {
    var s, row := Started(t, round), t.rows[i];
    InsertKeepsValid(t, round.before);
    assert s.rows[i] == row;
    IndexFound(s.rows, i);
    SurvivorAt(s.rows[..Batch(s)], round.turns, 0, i);
    if row.attempts + 1 >= MAX_ATTEMPTS {
      ExhaustedRow(s, round, i);
    }
  }

  lemma ExhaustedRow<P>(s: Table<P>, round: Round<P>, i: nat)
    requires Valid(s) && i < Batch(s) && Left(s.rows[i], round.turns(i).reply) == []
    ensures !Present(Drained(s, round.turns), s.rows[i].id)
  {
    var n, u := Batch(s), Drained(s, round.turns);
    forall r | r in Survivors(s.rows[..n], round.turns, 0) ensures r.id != s.rows[i].id {
      var j := SurvivorFrom(s.rows[..n], round.turns, 0, r);
      assert r.id == s.rows[j].id;
    }
    forall r | r in s.rows[n..] ensures r.id != s.rows[i].id {
      var j :| n <= j < |s.rows| && s.rows[j] == r;
    }
  }

  /** What a drain decides for each row of its batch, in terms of the answer alone: a sample
      batch or a result that was accepted leaves, and so does one refused or raised for the
      tenth time and an item of any other kind; everything else stays with one more attempt. */
  lemma DrainDecides<P>(t: Table<P>, turns: nat -> Turn<P>, j: nat)
    requires Valid(t) && j < |t.rows| && j < DRAIN_BATCH
    ensures var row, after := t.rows[j], Drained(t, turns);
            var stays := row.item.kind in {"telemetry", "callback"} && turns(j).reply != Accepted && row.attempts < 9;
            && (Present(after, row.id) <==> stays)
            && (stays ==> row.(attempts := row.attempts + 1) in after.rows)
  {
    var row, n := t.rows[j], Batch(t);
    SurvivorAt(t.rows[..n], turns, 0, j);
    if Left(row, turns(j).reply) == [] {
      ExhaustedRow(t, Round([], turns), j);
    }
  }

  /** What is enqueued while an item is sent, or at the yield after it, is queued afterwards
      as a fresh row. */
  lemma {:induction false} ArrivalsAreQueued<P>(batch: seq<Row<P>>, turns: nat -> Turn<P>, from: nat, j: nat,
      item: Item<P>)
    requires j < |batch|
    requires item in turns(from + j).after
             || (item in turns(from + j).during && batch[j].item.kind in {"telemetry", "callback"})
    ensures item in Arrivals(batch, turns, from)
  {
    if j > 0 {
      ArrivalsAreQueued(batch[1..], turns, from + 1, j - 1, item);
    }
  }

  lemma EnqueuedMeanwhileStays<P>(t: Table<P>, turns: nat -> Turn<P>, j: nat, item: Item<P>)
    requires j < Batch(t)
    requires item in turns(j).after || (item in turns(j).during && t.rows[j].item.kind in {"telemetry", "callback"})
    ensures exists r :: r in Drained(t, turns).rows && r.item == item && r.attempts == 0 && t.nextId <= r.id
  {
    var n := Batch(t);
    ArrivalsAreQueued(t.rows[..n], turns, 0, j, item);
    var all := Arrivals(t.rows[..n], turns, 0);
    var k :| 0 <= k < |all| && all[k] == item;
    var added := Fresh(all, t.nextId);
    assert added[k] in added && added[k] in Drained(t, turns).rows;
  }

  /** Rows behind the batch are untouched. */
  lemma DrainLeavesOthers<P>(t: Table<P>, turns: nat -> Turn<P>, j: nat)
    requires Valid(t) && DRAIN_BATCH <= j < |t.rows|
    ensures t.rows[j] in Drained(t, turns).rows
  {
    assert t.rows[DRAIN_BATCH..][j - DRAIN_BATCH] == t.rows[j];
  }

  /** A row that is not posted stays as it is. */
  lemma UnpostedRow<P>(t: Table<P>, round: Round<P>, i: nat)
    requires Valid(t) && i < |t.rows| && !Posts(t, round, t.rows[i].id)
    ensures t.rows[i] in OneRound(t, round).rows
  {
    var s := Started(t, round);
    InsertKeepsValid(t, round.before);
    assert s.rows[i] == t.rows[i];
    IndexFound(s.rows, i);
    var n := Batch(s);
    assert s.rows[n..][i - n] == t.rows[i];
  }

  /** A gone row does not come back, and is not posted again. */
  lemma {:induction false} GoneStaysGone<P>(t: Table<P>, rounds: seq<Round<P>>, id: nat)
    requires Valid(t) && id < t.nextId && !Present(t, id)
    ensures TimesPosted(t, rounds, id) == 0 && !Present(Rounds(t, rounds), id)
    decreases |rounds|
  {
    if rounds != [] {
      GoneRound(t, rounds[0], id);
      GoneStaysGone(OneRound(t, rounds[0]), rounds[1..], id);
    }
  }

  lemma {:induction false} GoneNeverFails<P>(t: Table<P>, rounds: seq<Round<P>>, id: nat)
    requires Valid(t) && id < t.nextId && !Present(t, id)
    ensures AllFail(t, rounds, id)
    decreases |rounds|
  {
    if rounds != [] {
      GoneRound(t, rounds[0], id);
      GoneNeverFails(OneRound(t, rounds[0]), rounds[1..], id);
    }
  }

  lemma GoneRound<P>(t: Table<P>, round: Round<P>, id: nat)
    requires Valid(t) && id < t.nextId && !Present(t, id)
    ensures var u := OneRound(t, round); Valid(u) && id < u.nextId && !Present(u, id) && !Posts(t, round, id)
  {
    RoundPresses(t, round, id, id + 1, 0);
    CountNone(t.rows, id, id + 1);
    if Present(OneRound(t, round), id) {
      PresentIsCounted(OneRound(t, round), id);
    }
    NewRowsDiffer(t, round, id);
  }

  lemma PresentIsCounted<P>(t: Table<P>, id: nat)
    requires Present(t, id)
    ensures CountIn(t.rows, id, id + 1) >= 1
  {
    var r :| r in t.rows && r.id == id;
    var i :| 0 <= i < |t.rows| && t.rows[i] == r;
    CountsItself(t.rows, i);
  }

  lemma NewRowsDiffer<P>(t: Table<P>, round: Round<P>, id: nat)
    requires id < t.nextId && !Present(t, id)
    ensures !Posts(t, round, id)
  {
    var s := Started(t, round);
    forall k | 0 <= k < |s.rows| ensures s.rows[k].id != id {
      assert k < |t.rows| ==> s.rows[k] == t.rows[k] && t.rows[k] in t.rows;
    }
  }

  /** Where a row with this many failures stands. */
  ghost predicate Recorded<P>(t: Table<P>, row: Row<P>, failures: nat) {
    && row.attempts + failures <= MAX_ATTEMPTS
    && if row.attempts + failures < MAX_ATTEMPTS then row.(attempts := row.attempts + failures) in t.rows
       else !Present(t, row.id)
  }

  lemma RoundIsRecorded<P>(t: Table<P>, round: Round<P>, i: nat)
    requires Valid(t) && i < |t.rows| && Fails(t, round, t.rows[i].id)
    ensures Valid(OneRound(t, round)) && t.rows[i].id < OneRound(t, round).nextId
    ensures Recorded(OneRound(t, round), t.rows[i], if Posts(t, round, t.rows[i].id) then 1 else 0)
  {
    RoundPresses(t, round, 0, 0, 0);
    if Posts(t, round, t.rows[i].id) {
      PostedRow(t, round, i);
    } else {
      UnpostedRow(t, round, i);
    }
  }

  /** A row whose posts all fail has one attempt on record for each of them while it is
      there, and when it is gone it was posted exactly as often as the cap left it. */
  lemma {:induction false} EveryPostIsRecorded<P>(t: Table<P>, rounds: seq<Round<P>>, i: nat)
    requires Valid(t) && i < |t.rows| && AllFail(t, rounds, t.rows[i].id)
    ensures Recorded(Rounds(t, rounds), t.rows[i], TimesPosted(t, rounds, t.rows[i].id))
    decreases |rounds|, 0
  {
    if rounds != [] {
      var u, row := OneRound(t, rounds[0]), t.rows[i];
      RoundIsRecorded(t, rounds[0], i);
      var failures := if Posts(t, rounds[0], row.id) then 1 else 0;
      RestIsRecorded(u, rounds[1..], row, failures);
      assert TimesPosted(t, rounds, row.id) == failures + TimesPosted(u, rounds[1..], row.id);
      assert Rounds(t, rounds) == Rounds(u, rounds[1..]);
    } else {
      assert TimesPosted(t, rounds, t.rows[i].id) == 0;
    }
  }

  lemma {:induction false} RestIsRecorded<P>(u: Table<P>, rounds: seq<Round<P>>, row: Row<P>, failures: nat)
    requires Valid(u) && row.id < u.nextId && failures <= 1 && Recorded(u, row, failures) && AllFail(u, rounds, row.id)
    ensures Recorded(Rounds(u, rounds), row, failures + TimesPosted(u, rounds, row.id))
    decreases |rounds|, 1
  {
    if row.attempts + failures < MAX_ATTEMPTS {
      var now := row.(attempts := row.attempts + failures);
      var k :| 0 <= k < |u.rows| && u.rows[k] == now;
      EveryPostIsRecorded(u, rounds, k);
    } else {
      GoneStaysGone(u, rounds, row.id);
    }
  }

  /** A fresh row with at most `r` older ones in front, all of whose posts fail, is posted
      exactly ten times within 10 * (r / 50 + 1) drains, and is dropped then. */
  lemma DroppedAfterTen<P>(t: Table<P>, rounds: seq<Round<P>>, i: nat, r: nat)
    requires Valid(t) && i < |t.rows| && t.rows[i].attempts == 0 && AllFail(t, rounds, t.rows[i].id)
    requires CountIn(t.rows, 0, t.rows[i].id) <= r && MAX_ATTEMPTS * (r / DRAIN_BATCH + 1) <= |rounds|
    ensures TimesPosted(t, rounds, t.rows[i].id) == MAX_ATTEMPTS
    ensures !Present(Rounds(t, rounds), t.rows[i].id)
  {
    FairDraining(t, rounds, t.rows[i].id, r);
    EveryPostIsRecorded(t, rounds, i);
  }
}
