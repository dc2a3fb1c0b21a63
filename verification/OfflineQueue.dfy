/** The agent's store-and-forward queue: an SQLite table read oldest first, whose
    rows leave when they are delivered or when their tenth attempt fails.

    The table is a sequence ordered by id. The answers of the send functions and
    the rows that other tasks insert while `Drain` is suspended are parameters. */
module OfflineQueue {
  import opened Prelude
  import opened Bags

  const MAX_ATTEMPTS: nat := 10
  const DRAIN_BATCH: nat := 50

  const TELEMETRY := "telemetry"
  const CALLBACK := "callback"

  datatype Item<P> = Item(kind: string, payload: P)

  datatype Row<P> = Row(id: nat, item: Item<P>, attempts: nat)

  /** `nextId` is the AUTOINCREMENT counter: an id is never given out twice. */
  datatype Table<P> = Table(rows: seq<Row<P>>, nextId: nat)

  /** How a send function ends: it returns true, returns false, or raises. */
  datatype Reply = Accepted | Refused | Raised

  /** What happens around one item of a drain: the reply of its send, the items
      enqueued while that send is awaited and those enqueued at the yield after it. */
  datatype Turn<P> = Turn(reply: Reply, during: seq<Item<P>>, after: seq<Item<P>>)

  /** One call of `drain`: the items enqueued since the previous call, and a script
      giving the turn of every position of the batch. */
  datatype Round<!P> = Round(before: seq<Item<P>>, turns: nat -> Turn<P>)

  // ---------------------------------------------------------------------------
  // The table's operations
  // ---------------------------------------------------------------------------

  ghost predicate Valid<P>(t: Table<P>) {
    && (forall i, j :: 0 <= i < j < |t.rows| ==> t.rows[i].id < t.rows[j].id)
    && (forall i :: 0 <= i < |t.rows| ==> t.rows[i].id < t.nextId && t.rows[i].attempts < MAX_ATTEMPTS)
  }

  /** The rows an INSERT of `items` creates when the counter stands at `first`. */
  function Fresh<P>(items: seq<Item<P>>, first: nat): (rows: seq<Row<P>>) {
    seq(|items|, i requires 0 <= i < |items| => Row(first + i, items[i], 0))
  }

  function Inserted<P>(t: Table<P>, items: seq<Item<P>>): Table<P> {
    Table(t.rows + Fresh(items, t.nextId), t.nextId + |items|)
  }

  /** One SQL statement over the table: every row is replaced by `f` of it. */
  function Rewritten<P>(rows: seq<Row<P>>, f: Row<P> -> seq<Row<P>>): seq<Row<P>> {
    if rows == [] then [] else f(rows[0]) + Rewritten(rows[1..], f)
  }

  /** DELETE FROM queue WHERE id = ? */
  function Without<P>(rows: seq<Row<P>>, id: nat): seq<Row<P>> {
    Rewritten(rows, (r: Row<P>) => if r.id == id then [] else [r])
  }

  /** UPDATE queue SET attempts = attempts + 1 WHERE id = ? */
  function Bumped<P>(rows: seq<Row<P>>, id: nat): seq<Row<P>> {
    Rewritten(rows, (r: Row<P>) => if r.id == id then [r.(attempts := r.attempts + 1)] else [r])
  }

  /** DELETE FROM queue WHERE id = ? AND attempts >= 10 */
  function WithoutExhausted<P>(rows: seq<Row<P>>, id: nat): seq<Row<P>> {
    Rewritten(rows, (r: Row<P>) => if r.id == id && r.attempts >= MAX_ATTEMPTS then [] else [r])
  }

  /** Items of an unknown kind count as delivered without being sent. */
  predicate Known<P>(item: Item<P>) {
    item.kind == TELEMETRY || item.kind == CALLBACK
  }

  predicate Delivered<P>(row: Row<P>, reply: Reply) {
    !Known(row.item) || reply == Accepted
  }

  /** What one turn of a drain leaves of a row. */
  function Left<P>(row: Row<P>, reply: Reply): seq<Row<P>> {
    if Delivered(row, reply) || row.attempts + 1 >= MAX_ATTEMPTS then []
    else [row.(attempts := row.attempts + 1)]
  }

  function Survivors<P>(batch: seq<Row<P>>, turns: nat -> Turn<P>, from: nat): seq<Row<P>> {
    if batch == [] then []
    else Left(batch[0], turns(from).reply) + Survivors(batch[1..], turns, from + 1)
  }

  /** The items enqueued while the batch is worked through. */
  function Arrivals<P>(batch: seq<Row<P>>, turns: nat -> Turn<P>, from: nat): seq<Item<P>> {
    if batch == [] then []
    else
      (if Known(batch[0].item) then turns(from).during else []) + turns(from).after
      + Arrivals(batch[1..], turns, from + 1)
  }

  function Batch<P>(t: Table<P>): (n: nat)
    ensures n <= |t.rows| && n <= DRAIN_BATCH
  {
    if |t.rows| <= DRAIN_BATCH then |t.rows| else DRAIN_BATCH
  }

  /** A whole drain: every row of the batch loses a life or leaves, no other row is
      touched, and what arrived meanwhile stands at the end. */
  function Drained<P>(t: Table<P>, turns: nat -> Turn<P>): Table<P> {
    var n := Batch(t);
    Inserted(Table(Survivors(t.rows[..n], turns, 0) + t.rows[n..], t.nextId), Arrivals(t.rows[..n], turns, 0))
  }

  function Rounds<P>(t: Table<P>, rounds: seq<Round<P>>): Table<P>
    decreases |rounds|
  {
    if rounds == [] then t
    else
      var next := Drained(Inserted(t, rounds[0].before), rounds[0].turns);
      Rounds(next, rounds[1..])
  }

  // ---------------------------------------------------------------------------
  // The queue as the agent uses it
  // ---------------------------------------------------------------------------

  class Queue<P> {
    var rows: seq<Row<P>>
    var nextId: nat

    ghost function Contents(): Table<P>
      reads this
    {
      Table(rows, nextId)
    }

    constructor ()
      ensures Contents() == Table([], 1)
    {
      rows, nextId := [], 1;
    }

    method Enqueue(item: Item<P>)
      modifies this
      ensures Contents() == Inserted(old(Contents()), [item])
    {
      rows := rows + [Row(nextId, item, 0)];
      nextId := nextId + 1;
    }

    /** Enqueue calls made by other tasks, in order. */
    method EnqueueAll(items: seq<Item<P>>)
      modifies this
      ensures Contents() == Inserted(old(Contents()), items)
    {
      var i := 0;
      while i < |items|
        invariant 0 <= i <= |items|
        invariant Contents() == Inserted(old(Contents()), items[..i])
      {
        assert items[..i + 1] == items[..i] + [items[i]];
        Enqueue(items[i]);
        i := i + 1;
      }
      assert items[..i] == items;
    }

    method Peek(limit: nat) returns (items: seq<Row<P>>)
      ensures items <= rows
      ensures |items| == if |rows| <= limit then |rows| else limit
    {
      items := if |rows| <= limit then rows else rows[..limit];
    }

    /** Exactly the row with this id goes; the others stay as they are and in order. */
    method Ack(id: nat)
      modifies this
      ensures Contents() == old(Contents()).(rows := Without(old(rows), id))
      ensures forall r :: r in rows <==> r in old(rows) && r.id != id
      ensures Ordered(old(rows)) ==> Ordered(rows)
    {
      ghost var was := rows;
      rows := Without(rows, id);
      forall r ensures r in rows <==> r in was && r.id != id { WithoutMeans(was, id, r); }
      if Ordered(was) { StatementsKeepOrder(was, id); }
    }

    /** The row with this id has one more attempt, and goes with the tenth; the others
        stay as they are and in order. */
    method Nack(id: nat)
      modifies this
      ensures Contents() == old(Contents()).(rows := WithoutExhausted(Bumped(old(rows), id), id))
      ensures forall r :: r in rows <==> AfterFailure(old(rows), id, r)
      ensures Ordered(old(rows)) ==> Ordered(rows)
    {
      ghost var was := rows;
      rows := Bumped(rows, id);
      if Ordered(was) { StatementsKeepOrder(was, id); }
      if Ordered(rows) { StatementsKeepOrder(rows, id); }
      rows := WithoutExhausted(rows, id);
      forall r ensures r in rows <==> AfterFailure(was, id, r) { NackMeans(was, id, r); }
    }

    /** The body of the drain loop for one item. */
    method TakeTurn(item: Row<P>, turn: Turn<P>)
      modifies this
      ensures Contents() == Turned(old(Contents()), item, turn)
    {
      if Known(item.item) {
        EnqueueAll(turn.during);
      }
      if Delivered(item, turn.reply) {
        Ack(item.id);
      } else {
        Nack(item.id);
      }
      EnqueueAll(turn.after);
    }

    method Drain(turns: nat -> Turn<P>)
      requires Valid(Contents())
      modifies this
      ensures Contents() == Drained(old(Contents()), turns)
      ensures Valid(Contents())
    {
      var items := Peek(DRAIN_BATCH);
      assert items == rows[..Batch(Contents())];
      if |items| == 0 {
        return;
      }
      ghost var done, tail := DrainStarts(Contents(), items, turns);
      assert items[0..] == items;
      WorkThrough(items, turns, done, tail);
    }

    /** The loop of `drain` over the rows it has read. */
    method WorkThrough(items: seq<Row<P>>, turns: nat -> Turn<P>, ghost ahead: seq<Row<P>>, ghost behind: seq<Row<P>>)
      requires InProgress(Contents(), ahead, items, behind)
      modifies this
      ensures Contents() == DrainRest(old(Contents()), ahead, items, behind, turns, 0)
      ensures Valid(Contents())
    {
      ghost var goal := DrainRest(Contents(), ahead, items, behind, turns, 0);
      ghost var done, tail := ahead, behind;
      var i := 0;
      assert items[0..] == items;
      while i < |items|
        invariant 0 <= i <= |items|
        invariant InProgress(Contents(), done, items[i..], tail)
        invariant DrainRest(Contents(), done, items[i..], tail, turns, i) == goal
      {
        ghost var t := Contents();
        assert items[i..] == [items[i]] + items[i + 1..];
        TakeTurn(items[i], turns(i));
        done, tail := TurnAdvances(t, done, items[i], items[i + 1..], tail, turns, i);
        i := i + 1;
      }
      DrainEnds(Contents(), done, items[i..], tail, turns, i);
    }
  }

  // ---------------------------------------------------------------------------
  // What the statements mean
  // ---------------------------------------------------------------------------

  ghost predicate Ordered<P>(rows: seq<Row<P>>) {
    forall i, j :: 0 <= i < j < |rows| ==> rows[i].id < rows[j].id
  }

  lemma {:induction false} RewrittenHas<P>(rows: seq<Row<P>>, f: Row<P> -> seq<Row<P>>, r: Row<P>)
    ensures r in Rewritten(rows, f) <==> exists o :: o in rows && r in f(o)
  {
    if rows != [] {
      RewrittenHas(rows[1..], f, r);
      assert rows == [rows[0]] + rows[1..];
    }
  }

  /** A statement that replaces rows by at most one with the same id keeps the order. */
  lemma {:induction false} RewrittenOrdered<P>(rows: seq<Row<P>>, f: Row<P> -> seq<Row<P>>)
    requires Ordered(rows)
    requires forall o :: o in rows ==> |f(o)| <= 1 && forall r :: r in f(o) ==> r.id == o.id
    ensures Ordered(Rewritten(rows, f))
  {
    if rows != [] {
      var rest := Rewritten(rows[1..], f);
      RewrittenOrdered(rows[1..], f);
      forall r | r in rest ensures rows[0].id < r.id {
        RewrittenHas(rows[1..], f, r);
        var o :| o in rows[1..] && r in f(o);
        var i :| 0 <= i < |rows[1..]| && rows[1..][i] == o;
        assert o in rows && rows[0].id < rows[i + 1].id;
      }
      assert rows[0] in rows;
      assert Rewritten(rows, f) == f(rows[0]) + rest;
      assert f(rows[0]) == [] || f(rows[0])[0] in f(rows[0]);
    }
  }

  lemma WithoutMeans<P>(rows: seq<Row<P>>, id: nat, r: Row<P>)
    ensures r in Without(rows, id) <==> r in rows && r.id != id
  {
    RewrittenHas(rows, (r: Row<P>) => if r.id == id then [] else [r], r);
  }

  /** The row that a failure turns into `r`. */
  function Before<P>(id: nat, r: Row<P>): Row<P> {
    if r.id == id && r.attempts > 0 then r.(attempts := r.attempts - 1) else r
  }

  lemma BumpedMeans<P>(rows: seq<Row<P>>, id: nat, r: Row<P>)
    ensures r in Bumped(rows, id) <==> Before(id, r) in rows && (r.id == id ==> r.attempts > 0)
  {
    var f := (r: Row<P>) => if r.id == id then [r.(attempts := r.attempts + 1)] else [r];
    RewrittenHas(rows, f, r);
    if r.id == id ==> r.attempts > 0 {
      assert r in f(Before(id, r));
    }
  }

  /** The rows after a failure of the row with this id, which goes with its tenth. */
  ghost predicate AfterFailure<P>(rows: seq<Row<P>>, id: nat, r: Row<P>) {
    Before(id, r) in rows && (r.id == id ==> 0 < r.attempts < MAX_ATTEMPTS)
  }

  lemma NackMeans<P>(rows: seq<Row<P>>, id: nat, r: Row<P>)
    ensures r in WithoutExhausted(Bumped(rows, id), id) <==> AfterFailure(rows, id, r)
  {
    BumpedMeans(rows, id, r);
    RewrittenHas(Bumped(rows, id), (r: Row<P>) => if r.id == id && r.attempts >= MAX_ATTEMPTS then [] else [r], r);
  }

  lemma StatementsKeepOrder<P>(rows: seq<Row<P>>, id: nat)
    requires Ordered(rows)
    ensures Ordered(Without(rows, id)) && Ordered(Bumped(rows, id)) && Ordered(WithoutExhausted(rows, id))
  {
    RewrittenOrdered(rows, (r: Row<P>) => if r.id == id then [] else [r]);
    RewrittenOrdered(rows, (r: Row<P>) => if r.id == id then [r.(attempts := r.attempts + 1)] else [r]);
    RewrittenOrdered(rows, (r: Row<P>) => if r.id == id && r.attempts >= MAX_ATTEMPTS then [] else [r]);
  }

  // ---------------------------------------------------------------------------
  // One turn of a drain
  // ---------------------------------------------------------------------------

  /** The table after one turn, statement by statement. */
  function Turned<P>(t: Table<P>, row: Row<P>, turn: Turn<P>): Table<P> {
    var sent := if Known(row.item) then Inserted(t, turn.during) else t;
    Inserted(Settled(sent, row, turn.reply), turn.after)
  }

  function Settled<P>(t: Table<P>, row: Row<P>, reply: Reply): Table<P> {
    if Delivered(row, reply) then t.(rows := Without(t.rows, row.id))
    else t.(rows := WithoutExhausted(Bumped(t.rows, row.id), row.id))
  }

  lemma {:induction false} RewrittenSplit<P>(a: seq<Row<P>>, b: seq<Row<P>>, f: Row<P> -> seq<Row<P>>)
    ensures Rewritten(a + b, f) == Rewritten(a, f) + Rewritten(b, f)
  {
    if a == [] {
      assert a + b == b;
    } else {
      assert (a + b)[1..] == a[1..] + b;
      RewrittenSplit(a[1..], b, f);
    }
  }

  lemma {:induction false} RewrittenSame<P>(rows: seq<Row<P>>, f: Row<P> -> seq<Row<P>>)
    requires forall r :: r in rows ==> f(r) == [r]
    ensures Rewritten(rows, f) == rows
  {
    if rows != [] {
      RewrittenSame(rows[1..], f);
    }
  }

  lemma RewrittenAt<P>(a: seq<Row<P>>, row: Row<P>, b: seq<Row<P>>, f: Row<P> -> seq<Row<P>>)
    requires forall r :: r in a || r in b ==> f(r) == [r]
    ensures Rewritten(a + [row] + b, f) == a + f(row) + b
  {
    RewrittenSplit(a + [row], b, f);
    RewrittenSplit(a, [row], f);
    RewrittenSame(a, f);
    RewrittenSame(b, f);
    RewrittenOne(row, f);
  }

  lemma RewrittenOne<P>(row: Row<P>, f: Row<P> -> seq<Row<P>>)
    ensures Rewritten([row], f) == f(row)
  {
    assert [row][1..] == [];
  }

  /** The SQL statements of `ack` and `nack` touch the one row with that id: together
      they leave of it exactly what `Left` says, and every other row as it was. */
  lemma SettleAt<P>(t: Table<P>, a: seq<Row<P>>, row: Row<P>, b: seq<Row<P>>, reply: Reply)
    requires Valid(t) && t.rows == a + [row] + b
    ensures Settled(t, row, reply).rows == a + Left(row, reply) + b
    ensures Valid(Settled(t, row, reply))
  {
    forall r | r in a ensures r.id != row.id {
      var i :| 0 <= i < |a| && a[i] == r;
      assert t.rows[i].id < t.rows[|a|].id;
    }
    forall r | r in b ensures r.id != row.id {
      var i :| 0 <= i < |b| && b[i] == r;
      assert t.rows[|a|].id < t.rows[|a| + 1 + i].id;
    }
    assert row == t.rows[|a|];
    var id := row.id;
    if Delivered(row, reply) {
      RewrittenAt(a, row, b, (r: Row<P>) => if r.id == id then [] else [r]);
    } else {
      var up := row.(attempts := row.attempts + 1);
      RewrittenAt(a, row, b, (r: Row<P>) => if r.id == id then [r.(attempts := r.attempts + 1)] else [r]);
      assert Bumped(t.rows, id) == a + [up] + b;
      RewrittenAt(a, up, b, (r: Row<P>) => if r.id == id && r.attempts >= MAX_ATTEMPTS then [] else [r]);
    }
    ReplaceKeepsValid(t, a, row, Left(row, reply), b);
  }

  /** Settling a row that is in the table leaves every other row where it was. */
  lemma SettleInPlace<P>(t: Table<P>, row: Row<P>, reply: Reply) returns (a: seq<Row<P>>, b: seq<Row<P>>)
    requires Valid(t) && row in t.rows
    ensures Valid(Settled(t, row, reply))
    ensures t.rows == a + [row] + b && Settled(t, row, reply).rows == a + Left(row, reply) + b
    ensures forall r :: r in a || r in b ==> r.id != row.id
  {
    var i :| 0 <= i < |t.rows| && t.rows[i] == row;
    a, b := t.rows[..i], t.rows[i + 1..];
    assert t.rows == a + [row] + b;
    SettleAt(t, a, row, b, reply);
    forall r | r in a || r in b ensures r.id != row.id {
      var j :| 0 <= j < |t.rows| && j != i && t.rows[j] == r;
    }
  }

  /** What a suspended drain still has to send is in the table, oldest first. */
  ghost predicate DrainSound<P>(t: Table<P>, draining: seq<Row<P>>) {
    && Valid(t)
    && (forall r :: r in draining ==> r in t.rows)
    && (forall i, j :: 0 <= i < j < |draining| ==> draining[i].id < draining[j].id)
  }

  lemma InsertKeepsDrain<P>(t: Table<P>, draining: seq<Row<P>>, item: Item<P>)
    requires DrainSound(t, draining)
    ensures DrainSound(Inserted(t, [item]), draining)
    ensures Inserted(t, [item]).rows == t.rows + [Row(t.nextId, item, 0)]
  {
    assert Fresh([item], t.nextId) == [Row(t.nextId, item, 0)];
  }

  lemma SettleKeepsDrain<P>(t: Table<P>, draining: seq<Row<P>>, reply: Reply)
    requires DrainSound(t, draining) && draining != []
    ensures DrainSound(Settled(t, draining[0], reply), draining[1..])
  {
    assert draining[0] in t.rows;
    var a, b := SettleInPlace(t, draining[0], reply);
    forall r | r in draining[1..] ensures r in Settled(t, draining[0], reply).rows {
      var j :| 0 <= j < |draining[1..]| && draining[1..][j] == r;
      assert draining[0].id < draining[j + 1].id;
      assert r in t.rows;
    }
  }

  lemma ReplaceKeepsValid<P>(t: Table<P>, a: seq<Row<P>>, row: Row<P>, left: seq<Row<P>>, b: seq<Row<P>>)
    requires Valid(t) && t.rows == a + [row] + b
    requires left == [] || (|left| == 1 && left[0].id == row.id && left[0].attempts < MAX_ATTEMPTS)
    ensures Valid(t.(rows := a + left + b))
  {
    var after := a + left + b;
    var shift := 1 - |left|;
    forall i | 0 <= i < |after|
      ensures after[i].id == t.rows[if i < |a| then i else i + shift].id
      ensures after[i].attempts < MAX_ATTEMPTS
    {
      if i < |a| {
        assert after[i] == t.rows[i];
      } else if i < |a| + |left| {
        assert after[i] == left[0] && t.rows[i] == row;
      } else {
        assert after[i] == t.rows[i + shift];
      }
    }
  }

  lemma InsertKeepsValid<P>(t: Table<P>, items: seq<Item<P>>)
    requires Valid(t)
    ensures Valid(Inserted(t, items))
  {}

  lemma InsertedInParts<P>(t: Table<P>, a: seq<Item<P>>, b: seq<Item<P>>, c: seq<Item<P>>)
    ensures Inserted(t, a + b + c) == Inserted(Inserted(Inserted(t, a), b), c)
  {
    assert Fresh(a + b + c, t.nextId)
        == Fresh(a, t.nextId) + Fresh(b, t.nextId + |a|) + Fresh(c, t.nextId + |a| + |b|);
  }

  lemma InsertAdds<P, X>(t: Table<P>, item: Item<P>, f: Row<P> -> multiset<X>)
    ensures Total(Inserted(t, [item]).rows, f) == Total(t.rows, f) + f(Row(t.nextId, item, 0))
  {
    assert Fresh([item], t.nextId) == [Row(t.nextId, item, 0)];
    TotalAppend(t.rows, Row(t.nextId, item, 0), f);
  }

  /** Mid-drain the table is what was decided, what is still to do, and the rest. */
  ghost predicate InProgress<P>(t: Table<P>, done: seq<Row<P>>, todo: seq<Row<P>>, tail: seq<Row<P>>) {
    Valid(t) && t.rows == done + todo + tail
  }

  /** The table that remaining turns will lead to. */
  function DrainRest<P>(t: Table<P>, done: seq<Row<P>>, todo: seq<Row<P>>, tail: seq<Row<P>>,
                        turns: nat -> Turn<P>, i: nat): Table<P>
  {
    Inserted(Table(done + Survivors(todo, turns, i) + tail, t.nextId), Arrivals(todo, turns, i))
  }

  lemma DrainStarts<P>(t: Table<P>, items: seq<Row<P>>, turns: nat -> Turn<P>)
    returns (done: seq<Row<P>>, tail: seq<Row<P>>)
    requires Valid(t) && items == t.rows[..Batch(t)]
    ensures InProgress(t, done, items[0..], tail)
    ensures DrainRest(t, done, items[0..], tail, turns, 0) == Drained(t, turns)
  {
    done, tail := [], t.rows[|items|..];
    assert items[0..] == items;
    assert [] + Survivors(items, turns, 0) + tail == Survivors(items, turns, 0) + tail;
  }

  lemma DrainEnds<P>(t: Table<P>, done: seq<Row<P>>, todo: seq<Row<P>>, tail: seq<Row<P>>,
                     turns: nat -> Turn<P>, i: nat)
    requires InProgress(t, done, todo, tail) && todo == []
    ensures DrainRest(t, done, todo, tail, turns, i) == t
  {
    assert done + [] + tail == t.rows;
  }

  lemma TurnAdvances<P>(t: Table<P>, done: seq<Row<P>>, row: Row<P>, todo: seq<Row<P>>, tail: seq<Row<P>>,
                        turns: nat -> Turn<P>, i: nat)
    returns (done': seq<Row<P>>, tail': seq<Row<P>>)
    requires InProgress(t, done, [row] + todo, tail)
    ensures InProgress(Turned(t, row, turns(i)), done', todo, tail')
    ensures DrainRest(Turned(t, row, turns(i)), done', todo, tail', turns, i + 1)
         == DrainRest(t, done, [row] + todo, tail, turns, i)
  {
    var during := if Known(row.item) then turns(i).during else [];
    done' := done + Left(row, turns(i).reply);
    tail' := tail + Fresh(during, t.nextId) + Fresh(turns(i).after, t.nextId + |during|);
    TurnedRows(t, done, row, todo, tail, turns(i), during);
    RestAfterTurn(t, Turned(t, row, turns(i)), done, row, todo, tail, during, turns, i);
  }

  /** What is left to come after a turn is what was to come before it. */
  lemma RestAfterTurn<P>(t: Table<P>, next: Table<P>, done: seq<Row<P>>, row: Row<P>, todo: seq<Row<P>>,
      tail: seq<Row<P>>,
                         during: seq<Item<P>>, turns: nat -> Turn<P>, i: nat)
    requires during == if Known(row.item) then turns(i).during else []
    requires next.nextId == t.nextId + |during| + |turns(i).after|
    ensures DrainRest(t, done, [row] + todo, tail, turns, i)
         == DrainRest(next, done + Left(row, turns(i).reply), todo,
                      tail + Fresh(during, t.nextId) + Fresh(turns(i).after, t.nextId + |during|), turns, i + 1)
  {
    var new1, new2 := Fresh(during, t.nextId), Fresh(turns(i).after, t.nextId + |during|);
    var rows, later := Survivors(todo, turns, i + 1), Arrivals(todo, turns, i + 1);
    assert ([row] + todo)[1..] == todo;
    InsertedInParts(Table(done + Survivors([row] + todo, turns, i) + tail, t.nextId), during, turns(i).after, later);
    Reassociate(done, Left(row, turns(i).reply), rows, tail, new1, new2, Fresh(later, next.nextId));
  }

  lemma TurnedRows<P>(t: Table<P>, done: seq<Row<P>>, row: Row<P>, todo: seq<Row<P>>, tail: seq<Row<P>>,
                      turn: Turn<P>, during: seq<Item<P>>)
    requires InProgress(t, done, [row] + todo, tail)
    requires during == if Known(row.item) then turn.during else []
    ensures InProgress(Turned(t, row, turn), done + Left(row, turn.reply), todo,
                       tail + Fresh(during, t.nextId) + Fresh(turn.after, t.nextId + |during|))
    ensures Turned(t, row, turn).nextId == t.nextId + |during| + |turn.after|
  {
    var sent := Inserted(t, during);
    assert !Known(row.item) ==> Fresh(during, t.nextId) == [] && sent.rows == t.rows;
    var behind := todo + tail + Fresh(during, t.nextId);
    InsertKeepsValid(t, during);
    assert sent.rows == done + [row] + behind;
    SettledThenInserted(sent, done, row, todo, tail, Fresh(during, t.nextId), turn.reply, turn.after);
  }

  lemma SettledThenInserted<P>(t: Table<P>, done: seq<Row<P>>, row: Row<P>, todo: seq<Row<P>>, tail: seq<Row<P>>,
                               new1: seq<Row<P>>, reply: Reply, after: seq<Item<P>>)
    requires Valid(t) && t.rows == done + [row] + (todo + tail + new1)
    ensures InProgress(Inserted(Settled(t, row, reply), after), done + Left(row, reply), todo, tail + new1
        + Fresh(after, t.nextId))
  {
    SettleAt(t, done, row, todo + tail + new1, reply);
    InsertKeepsValid(Settled(t, row, reply), after);
  }

  lemma Reassociate<T>(a: seq<T>, b: seq<T>, c: seq<T>, d: seq<T>, e: seq<T>, f: seq<T>, g: seq<T>)
    ensures (a + b) + c + (d + e + f) + g == a + (b + c) + d + e + f + g
  {}

  // ---------------------------------------------------------------------------
  // Fair, bounded draining
  // ---------------------------------------------------------------------------

  /** How many rows carry an id in [lo, hi). */
  function CountIn<P>(rows: seq<Row<P>>, lo: nat, hi: nat): nat {
    if rows == [] then 0
    else (if lo <= rows[0].id < hi then 1 else 0) + CountIn(rows[1..], lo, hi)
  }

  /** Every row below `hi` has failed at least `k` times. */
  ghost predicate Tried<P>(rows: seq<Row<P>>, hi: nat, k: nat) {
    forall r :: r in rows && r.id < hi ==> k <= r.attempts
  }

  ghost predicate Present<P>(t: Table<P>, id: nat) {
    exists r :: r in t.rows && r.id == id
  }

  lemma {:induction false} CountSplit<P>(a: seq<Row<P>>, b: seq<Row<P>>, lo: nat, hi: nat)
    ensures CountIn(a + b, lo, hi) == CountIn(a, lo, hi) + CountIn(b, lo, hi)
  {
    if a == [] {
      assert a + b == b;
    } else {
      assert (a + b)[1..] == a[1..] + b;
      CountSplit(a[1..], b, lo, hi);
    }
  }

  lemma {:induction false} CountNone<P>(rows: seq<Row<P>>, lo: nat, hi: nat)
    requires forall r :: r in rows ==> !(lo <= r.id < hi)
    ensures CountIn(rows, lo, hi) == 0
  {
    if rows != [] {
      CountNone(rows[1..], lo, hi);
    }
  }

  lemma {:induction false} CountRange<P>(rows: seq<Row<P>>, lo: nat, mid: nat, hi: nat)
    requires lo <= mid <= hi
    ensures CountIn(rows, lo, hi) == CountIn(rows, lo, mid) + CountIn(rows, mid, hi)
  {
    if rows != [] {
      CountRange(rows[1..], lo, mid, hi);
    }
  }

  /** In a table ordered by id, the rows below the i-th id are the first i rows. */
  lemma {:induction false} CountIsPosition<P>(rows: seq<Row<P>>, i: nat)
    requires i < |rows|
    requires forall a, b :: 0 <= a < b < |rows| ==> rows[a].id < rows[b].id
    ensures CountIn(rows, 0, rows[i].id) == i
  {
    assert rows == rows[..i] + rows[i..];
    CountSplit(rows[..i], rows[i..], 0, rows[i].id);
    CountNone(rows[i..], 0, rows[i].id);
    CountAll(rows[..i], rows[i].id);
  }

  lemma {:induction false} CountAll<P>(rows: seq<Row<P>>, hi: nat)
    requires forall r :: r in rows ==> r.id < hi
    ensures CountIn(rows, 0, hi) == |rows|
  {
    if rows != [] {
      CountAll(rows[1..], hi);
    }
  }

  /** A drain removes rows and never reorders or revives one. */
  lemma {:induction false} SurvivorsAreOld<P>(batch: seq<Row<P>>, turns: nat -> Turn<P>, from: nat, lo: nat, hi: nat)
    ensures CountIn(Survivors(batch, turns, from), lo, hi) <= CountIn(batch, lo, hi)
    ensures forall r :: r in Survivors(batch, turns, from) ==>
              exists o :: o in batch && o.id == r.id && r.attempts == o.attempts + 1
  {
    if batch != [] {
      SurvivorsAreOld(batch[1..], turns, from + 1, lo, hi);
      CountSplit(Left(batch[0], turns(from).reply), Survivors(batch[1..], turns, from + 1), lo, hi);
    }
  }

  /** The items that enter the table during one round, before or within its drain. */
  function Started<P>(t: Table<P>, round: Round<P>): Table<P> {
    Inserted(t, round.before)
  }

  function OneRound<P>(t: Table<P>, round: Round<P>): Table<P> {
    Drained(Started(t, round), round.turns)
  }

  lemma {:induction false} DrainKeepsValid<P>(t: Table<P>, turns: nat -> Turn<P>)
    requires Valid(t)
    ensures Valid(Drained(t, turns))
  {
    var items := t.rows[..Batch(t)];
    var done, tail := DrainStarts(t, items, turns);
    ValidThroughTurns(t, done, items[0..], tail, turns, 0);
  }

  lemma {:induction false} ValidThroughTurns<P>(t: Table<P>, done: seq<Row<P>>, todo: seq<Row<P>>, tail: seq<Row<P>>,
                                                turns: nat -> Turn<P>, i: nat)
    requires InProgress(t, done, todo, tail)
    ensures Valid(DrainRest(t, done, todo, tail, turns, i))
    decreases |todo|
  {
    if todo == [] {
      DrainEnds(t, done, todo, tail, turns, i);
    } else {
      assert todo == [todo[0]] + todo[1..];
      var done', tail' := TurnAdvances(t, done, todo[0], todo[1..], tail, turns, i);
      ValidThroughTurns(Turned(t, todo[0], turns(i)), done', todo[1..], tail', turns, i + 1);
    }
  }

  /** One drain cannot put a row in front of an existing one. */
  lemma RoundKeepsOrder<P>(t: Table<P>, round: Round<P>, lo: nat, hi: nat)
    requires Valid(t) && hi <= t.nextId
    ensures CountIn(OneRound(t, round).rows, lo, hi) <= CountIn(t.rows, lo, hi)
  {
    var s := Started(t, round);
    var n := Batch(s);
    var kept := Survivors(s.rows[..n], round.turns, 0);
    var added := Fresh(Arrivals(s.rows[..n], round.turns, 0), s.nextId);
    SurvivorsAreOld(s.rows[..n], round.turns, 0, lo, hi);
    CountSplit(t.rows, Fresh(round.before, t.nextId), lo, hi);
    CountNone(Fresh(round.before, t.nextId), lo, hi);
    assert s.rows == s.rows[..n] + s.rows[n..];
    CountSplit(s.rows[..n], s.rows[n..], lo, hi);
    CountSplit(kept, s.rows[n..], lo, hi);
    CountSplit(kept + s.rows[n..], added, lo, hi);
    CountNone(added, lo, hi);
  }

  /** It costs a life to every row below `hi` as long as at most a batch of them is left. */
  lemma RoundCostsALife<P>(t: Table<P>, round: Round<P>, hi: nat, k: nat)
    requires Valid(t) && hi <= t.nextId && CountIn(t.rows, 0, hi) <= DRAIN_BATCH && Tried(t.rows, hi, k)
    ensures Tried(OneRound(t, round).rows, hi, k + 1)
  {
    var s := Started(t, round);
    var n := Batch(s);
    BatchCovers(t, round, hi);
    SurvivorsAreOld(s.rows[..n], round.turns, 0, 0, hi);
    var kept := Survivors(s.rows[..n], round.turns, 0);
    forall r | r in kept && r.id < hi ensures k + 1 <= r.attempts {
      var o :| o in s.rows[..n] && o.id == r.id && r.attempts == o.attempts + 1;
      assert o in t.rows;
    }
  }

  lemma RoundPresses<P>(t: Table<P>, round: Round<P>, lo: nat, hi: nat, k: nat)
    requires Valid(t) && hi <= t.nextId
    ensures Valid(OneRound(t, round)) && t.nextId <= OneRound(t, round).nextId
    ensures CountIn(OneRound(t, round).rows, lo, hi) <= CountIn(t.rows, lo, hi)
    ensures CountIn(t.rows, 0, hi) <= DRAIN_BATCH && Tried(t.rows, hi, k) ==> Tried(OneRound(t, round).rows, hi, k + 1)
  {
    InsertKeepsValid(t, round.before);
    DrainKeepsValid(Started(t, round), round.turns);
    RoundKeepsOrder(t, round, lo, hi);
    if CountIn(t.rows, 0, hi) <= DRAIN_BATCH && Tried(t.rows, hi, k) {
      RoundCostsALife(t, round, hi, k);
    }
  }

  /** When at most a batch of rows lies below `hi`, the batch holds all of them. */
  lemma BatchCovers<P>(t: Table<P>, round: Round<P>, hi: nat)
    requires Valid(t) && hi <= t.nextId && CountIn(t.rows, 0, hi) <= DRAIN_BATCH
    ensures forall r :: r in Started(t, round).rows[Batch(Started(t, round))..] ==> hi <= r.id
  {
    var s := Started(t, round);
    InsertKeepsValid(t, round.before);
    var n := Batch(s);
    CountSplit(t.rows, Fresh(round.before, t.nextId), 0, hi);
    CountNone(Fresh(round.before, t.nextId), 0, hi);
    if n < |s.rows| && s.rows[n].id < hi {
      CountIsPosition(s.rows, n);
      CountRange(s.rows, 0, s.rows[n].id, hi);
      assert s.rows == s.rows[..n] + s.rows[n..];
      CountSplit(s.rows[..n], s.rows[n..], s.rows[n].id, hi);
      assert CountIn(s.rows[n..], s.rows[n].id, hi) >= 1;
      assert false;
    }
    forall r | r in s.rows[n..] ensures hi <= r.id {
      var i :| n <= i < |s.rows| && s.rows[i] == r;
      assert n == i || s.rows[n].id < s.rows[i].id;
    }
  }

  /** Rounds in a row: nothing overtakes, and `j` rounds cost `j` lives. */
  lemma {:induction false} RoundsPress<P>(t: Table<P>, rounds: seq<Round<P>>, lo: nat, hi: nat, k: nat)
    requires Valid(t) && hi <= t.nextId
    ensures Valid(Rounds(t, rounds)) && t.nextId <= Rounds(t, rounds).nextId
    ensures CountIn(Rounds(t, rounds).rows, lo, hi) <= CountIn(t.rows, lo, hi)
    ensures CountIn(t.rows, 0, hi) <= DRAIN_BATCH && Tried(t.rows, hi, k) ==>
              Tried(Rounds(t, rounds).rows, hi, k + |rounds|)
    decreases |rounds|
  {
    if rounds != [] {
      RoundPresses(t, rounds[0], lo, hi, k);
      RoundPresses(t, rounds[0], 0, hi, k);
      RoundsPress(OneRound(t, rounds[0]), rounds[1..], lo, hi, k + 1);
    }
  }

  lemma {:induction false} RoundsSplit<P>(t: Table<P>, a: seq<Round<P>>, b: seq<Round<P>>)
    ensures Rounds(t, a + b) == Rounds(Rounds(t, a), b)
    decreases |a|
  {
    if a == [] {
      assert a + b == b;
    } else {
      assert (a + b)[1..] == a[1..] + b;
      RoundsSplit(OneRound(t, a[0]), a[1..], b);
    }
  }

  /** Ten rounds empty the part of the queue that one batch can hold. */
  lemma TenRoundsClear<P>(t: Table<P>, rounds: seq<Round<P>>, hi: nat)
    requires Valid(t) && hi <= t.nextId && CountIn(t.rows, 0, hi) <= DRAIN_BATCH
    requires MAX_ATTEMPTS <= |rounds|
    ensures CountIn(Rounds(t, rounds).rows, 0, hi) == 0
    ensures forall id :: 0 <= id < hi ==> !Present(Rounds(t, rounds), id)
  {
    RoundsPress(t, rounds, 0, hi, 0);
    var after := Rounds(t, rounds);
    forall r | r in after.rows ensures hi <= r.id {
      var i :| 0 <= i < |after.rows| && after.rows[i] == r;
    }
    CountNone(after.rows, 0, hi);
  }

  /** A row with at most `r` older rows in front of it has left the queue after
      10 * (r / 50 + 1) drains: whatever the send functions return or raise, and
      however many newer rows are enqueued between and within the drains. */
  lemma {:induction false} FairDraining<P>(t: Table<P>, rounds: seq<Round<P>>, id: nat, r: nat)
    requires Valid(t) && id < t.nextId
    requires CountIn(t.rows, 0, id) <= r
    requires MAX_ATTEMPTS * (r / DRAIN_BATCH + 1) <= |rounds|
    ensures !Present(Rounds(t, rounds), id)
    decreases r
  {
    if CountIn(t.rows, 0, id + 1) <= DRAIN_BATCH {
      TenRoundsClear(t, rounds, id + 1);
    } else {
      var ten, later := rounds[..MAX_ATTEMPTS], rounds[MAX_ATTEMPTS..];
      assert rounds == ten + later;
      RoundsSplit(t, ten, later);
      TenRoundsAdvance(t, ten, id);
      FairDraining(Rounds(t, ten), later, id, r - DRAIN_BATCH);
    }
  }

  /** With a full batch in front of it, a row is 50 places further after ten rounds. */
  lemma TenRoundsAdvance<P>(t: Table<P>, rounds: seq<Round<P>>, id: nat)
    requires Valid(t) && id < t.nextId && |rounds| == MAX_ATTEMPTS
    requires DRAIN_BATCH < CountIn(t.rows, 0, id + 1)
    ensures Valid(Rounds(t, rounds)) && id < Rounds(t, rounds).nextId
    ensures DRAIN_BATCH <= CountIn(t.rows, 0, id)
    ensures CountIn(Rounds(t, rounds).rows, 0, id) <= CountIn(t.rows, 0, id) - DRAIN_BATCH
  {
    CountRange(t.rows, 0, id, id + 1);
    AtMostOne(t.rows, id);
    CountAllBelow(t.rows, id);
    FirstBatchBelow(t, id);
    var hi := t.rows[DRAIN_BATCH - 1].id + 1;
    CountRange(t.rows, 0, hi, id);
    TenRoundsClear(t, rounds, hi);
    RoundsPress(t, rounds, hi, id, 0);
    CountRange(Rounds(t, rounds).rows, 0, hi, id);
  }

  lemma {:induction false} AtMostOne<P>(rows: seq<Row<P>>, id: nat)
    requires forall a, b :: 0 <= a < b < |rows| ==> rows[a].id < rows[b].id
    ensures CountIn(rows, id, id + 1) <= 1
  {
    if rows != [] {
      if rows[0].id == id {
        forall r | r in rows[1..] ensures r.id != id {
          var i :| 1 <= i < |rows| && rows[i] == r;
        }
        CountNone(rows[1..], id, id + 1);
      } else {
        AtMostOne(rows[1..], id);
      }
    }
  }

  lemma {:induction false} CountAllBelow<P>(rows: seq<Row<P>>, hi: nat)
    ensures CountIn(rows, 0, hi) <= |rows|
  {
    if rows != [] {
      CountAllBelow(rows[1..], hi);
    }
  }

  /** If at least 50 rows are older than `id`, they include the first 50. */
  lemma FirstBatchBelow<P>(t: Table<P>, id: nat)
    requires Valid(t) && DRAIN_BATCH <= CountIn(t.rows, 0, id) && DRAIN_BATCH <= |t.rows|
    ensures t.rows[DRAIN_BATCH - 1].id + 1 <= id
    ensures CountIn(t.rows, 0, t.rows[DRAIN_BATCH - 1].id + 1) == DRAIN_BATCH
  {
    var i := DRAIN_BATCH - 1;
    var last := t.rows[i].id;
    CountIsPosition(t.rows, i);
    CountRange(t.rows, 0, last, last + 1);
    AtMostOne(t.rows, last);
    CountsItself(t.rows, i);
    if id <= last {
      CountRange(t.rows, 0, id, last);
      assert false;
    }
  }

  lemma CountsItself<P>(rows: seq<Row<P>>, i: nat)
    requires i < |rows|
    ensures CountIn(rows, rows[i].id, rows[i].id + 1) >= 1
  {
    var id := rows[i].id;
    assert rows == rows[..i] + rows[i..];
    CountSplit(rows[..i], rows[i..], id, id + 1);
    assert rows[i..][0].id == id;
  }

  /** Failed attempts stored in the table always lie in 0..9. */
  lemma AttemptsStayBelowTen<P>(rounds: seq<Round<P>>)
    ensures Valid(Rounds(Table([], 1), rounds))
    ensures forall r :: r in Rounds(Table([], 1), rounds).rows ==> 0 <= r.attempts <= 9
  {
    RoundsPress(Table([], 1), rounds, 0, 0, 0);
  }

  // ---------------------------------------------------------------------------
  // The bound is reached
  // ---------------------------------------------------------------------------

  /** A drain in which every send is refused and nothing arrives. */
  function Refusing<P>(): Round<P> {
    Round([], _ => Turn(Refused, [], []))
  }

  function Outage<P>(m: nat): seq<Round<P>> {
    seq(m, _ => Refusing<P>())
  }

  /** The rows with the first batch having failed `k` times. */
  function Worn<P>(rows: seq<Row<P>>, k: nat): (worn: seq<Row<P>>)
    ensures |worn| == |rows|
  {
    seq(|rows|, i requires 0 <= i < |rows| => if i < DRAIN_BATCH then rows[i].(attempts := k) else rows[i])
  }

  ghost predicate Untried<P>(rows: seq<Row<P>>) {
    forall r :: r in rows ==> r.attempts == 0 && Known(r.item)
  }

  lemma {:induction false} RefusedSurvivors<P>(batch: seq<Row<P>>, k: nat, from: nat)
    requires forall r :: r in batch ==> r.attempts == k && Known(r.item)
    ensures |Arrivals(batch, Refusing<P>().turns, from)| == 0
    ensures var kept := Survivors(batch, Refusing<P>().turns, from);
            if k + 1 >= MAX_ATTEMPTS then kept == []
            else kept == seq(|batch|, i requires 0 <= i < |batch| => batch[i].(attempts := k + 1))
  {
    if batch != [] {
      RefusedSurvivors(batch[1..], k, from + 1);
      assert batch[0] in batch;
    }
  }

  lemma RefusedRound<P>(rows: seq<Row<P>>, nextId: nat, k: nat)
    requires Untried(rows)
    ensures OneRound(Table(Worn(rows, k), nextId), Refusing())
         == Table(if k + 1 < MAX_ATTEMPTS then Worn(rows, k + 1) else rows[Min(DRAIN_BATCH, |rows|)..], nextId)
  {
    var t := Table(Worn(rows, k), nextId);
    var n := Batch(t);
    assert t.rows + Fresh([], nextId) == t.rows;
    assert Started(t, Refusing()) == t;
    WornSurvivors(rows, k, n);
    assert Inserted(Table(Survivors(t.rows[..n], Refusing<P>().turns, 0) + t.rows[n..], nextId), []).rows
        == Survivors(t.rows[..n], Refusing<P>().turns, 0) + t.rows[n..];
  }

  lemma WornSurvivors<P>(rows: seq<Row<P>>, k: nat, n: nat)
    requires Untried(rows) && n == Min(DRAIN_BATCH, |rows|)
    ensures Arrivals(Worn(rows, k)[..n], Refusing<P>().turns, 0) == []
    ensures Survivors(Worn(rows, k)[..n], Refusing<P>().turns, 0) + Worn(rows, k)[n..]
         == if k + 1 < MAX_ATTEMPTS then Worn(rows, k + 1) else rows[n..]
  {
    var batch := Worn(rows, k)[..n];
    assert forall r :: r in rows[..n] ==> r in rows;
    RefusedSurvivors(batch, k, 0);
    assert Worn(rows, k)[n..] == rows[n..];
    var kept := Survivors(batch, Refusing<P>().turns, 0);
    assert k + 1 < MAX_ATTEMPTS ==> kept + rows[n..] == Worn(rows, k + 1);
  }

  lemma {:induction false} RefusedRounds<P>(rows: seq<Row<P>>, nextId: nat, j: nat)
    requires Untried(rows) && j < MAX_ATTEMPTS
    ensures Rounds(Table(rows, nextId), Outage(j)) == Table(Worn(rows, j), nextId)
  {
    if j == 0 {
      assert Worn(rows, 0) == rows;
    } else {
      RefusedRounds(rows, nextId, j - 1);
      assert Outage<P>(j) == Outage(j - 1) + [Refusing()];
      RoundsSplit(Table(rows, nextId), Outage(j - 1), [Refusing()]);
      RefusedRound(rows, nextId, j - 1);
    }
  }

  /** The bound of `FairDraining` cannot be lowered: in an outage, a row with r fresh
      rows in front of it is still queued one drain before the bound. */
  lemma {:induction false} FairBoundIsReached<P>(rows: seq<Row<P>>, nextId: nat, r: nat)
    requires Untried(rows) && r < |rows|
    ensures Present(Rounds(Table(rows, nextId), Outage(MAX_ATTEMPTS * (r / DRAIN_BATCH + 1) - 1)), rows[r].id)
    decreases r
  {
    if r < DRAIN_BATCH {
      RefusedRounds(rows, nextId, MAX_ATTEMPTS - 1);
      assert Worn(rows, MAX_ATTEMPTS - 1)[r] in Worn(rows, MAX_ATTEMPTS - 1);
    } else {
      var rest := MAX_ATTEMPTS * ((r - DRAIN_BATCH) / DRAIN_BATCH + 1) - 1;
      assert r / DRAIN_BATCH == (r - DRAIN_BATCH) / DRAIN_BATCH + 1;
      assert Outage<P>(MAX_ATTEMPTS + rest) == Outage(MAX_ATTEMPTS) + Outage(rest);
      RoundsSplit(Table(rows, nextId), Outage(MAX_ATTEMPTS), Outage(rest));
      OutageEmptiesBatch(rows, nextId);
      FairBoundIsReached(rows[DRAIN_BATCH..], nextId, r - DRAIN_BATCH);
    }
  }

  lemma OutageEmptiesBatch<P>(rows: seq<Row<P>>, nextId: nat)
    requires Untried(rows) && DRAIN_BATCH <= |rows|
    ensures Rounds(Table(rows, nextId), Outage(MAX_ATTEMPTS)) == Table(rows[DRAIN_BATCH..], nextId)
  {
    var t := Table(rows, nextId);
    assert Outage<P>(MAX_ATTEMPTS) == Outage(MAX_ATTEMPTS - 1) + [Refusing()];
    RoundsSplit(t, Outage(MAX_ATTEMPTS - 1), [Refusing()]);
    RefusedRounds(rows, nextId, MAX_ATTEMPTS - 1);
    RefusedRound(rows, nextId, MAX_ATTEMPTS - 1);
    assert [Refusing<P>()][1..] == [];
  }
}
