/**
 * The Q-table of agents/q_learning_bot.py as a value: a dictionary from state
 * keys to rows, where a row is a Python dict from UCI strings to values.
 * Python dicts iterate in insertion order and `choose_action` breaks ties by
 * that order, so a row is an insertion-ordered sequence of entries with
 * distinct actions: overwriting an action keeps its place, a new action is
 * appended.
 */
module QTable {
  import opened Wrappers
  import opened Chess

  /** `get_simplified_state`'s tuple: (own material, opponent material, own mobility). */
  datatype StateKey = StateKey(ownMaterial: nat, oppMaterial: nat, mobility: nat)

  datatype Entry = Entry(action: Uci, value: real)

  type Row = seq<Entry>

  type Table = map<StateKey, Row>

  predicate DistinctActions(row: Row) {
    forall i, j :: 0 <= i < j < |row| ==> row[i].action != row[j].action
  }

  /** Every row of the table is a well-formed dict. */
  predicate ValidTable(t: Table) {
    forall s :: s in t ==> DistinctActions(t[s])
  }

  /** The value stored for action a in a row, if any. */
  function Lookup(row: Row, a: Uci): (r: Option<real>)
    ensures r.None? <==> forall i :: 0 <= i < |row| ==> row[i].action != a
  {
    if row == [] then None
    else if row[0].action == a then Some(row[0].value)
    else
      var r := Lookup(row[1..], a);
      assert forall i :: 0 < i < |row| ==> row[i] == row[1..][i - 1];
      r
  }

  /** Lookup finds the first entry whose action is a. */
  lemma {:induction false} LookupFindsFirst(row: Row, a: Uci, i: int)
    requires 0 <= i < |row| && row[i].action == a
    requires forall j :: 0 <= j < i ==> row[j].action != a
    ensures Lookup(row, a) == Some(row[i].value)
  {
    if i > 0 {
      assert row[1..][i - 1] == row[i];
      LookupFindsFirst(row[1..], a, i - 1);
    }
  }

  /** `row.get(a, 0)`: an action never stored counts as 0. */
  function Get(row: Row, a: Uci): real {
    Lookup(row, a).GetOr(0.0)
  }

  /** `row[a] = v`: overwrite in place, or append a new entry at the end. */
  function Put(row: Row, a: Uci, v: real): (r: Row)
    ensures Lookup(r, a) == Some(v)
    ensures Lookup(row, a).Some? ==> |r| == |row|
    ensures Lookup(row, a).None? ==> r == row + [Entry(a, v)]
    ensures forall i :: 0 <= i < |row| ==> r[i].action == row[i].action
  {
    if row == [] then [Entry(a, v)]
    else if row[0].action == a then [Entry(a, v)] + row[1..]
    else [row[0]] + Put(row[1..], a, v)
  }

  /** Writing a leaves every other action's entry as it was. */
  lemma {:induction false} PutOther(row: Row, a: Uci, v: real, b: Uci)
    requires b != a
    ensures Lookup(Put(row, a, v), b) == Lookup(row, b)
  {
    if row != [] && row[0].action != a && row[0].action != b {
      PutOther(row[1..], a, v, b);
    }
  }

  /** Writing keeps the actions of a row distinct. */
  lemma {:induction false} PutKeepsDistinct(row: Row, a: Uci, v: real)
    requires DistinctActions(row)
    ensures DistinctActions(Put(row, a, v))
  {
    var r := Put(row, a, v);
    if row == [] {
    } else if row[0].action == a {
      assert |r| == |row|;
      forall i, j | 0 <= i < j < |r|
        ensures r[i].action != r[j].action
      {
        assert r[i].action == row[i].action && r[j].action == row[j].action;
      }
    } else {
      var rest := row[1..];
      var pr := Put(rest, a, v);
      PutKeepsDistinct(rest, a, v);
      assert r == [row[0]] + pr;
      forall i, j | 0 <= i < j < |r|
        ensures r[i].action != r[j].action
      {
        assert r[j] == pr[j - 1];
        if i > 0 {
          assert r[i] == pr[i - 1];
        } else if j - 1 < |rest| {
          assert pr[j - 1].action == rest[j - 1].action == row[j].action;
        } else {
          assert Lookup(rest, a).None? && pr == rest + [Entry(a, v)];
        }
      }
    }
  }

  /** Python's `max(row.values())` on a non-empty row. */
  function MaxValue(row: Row): (m: real)
    requires row != []
    ensures exists i :: 0 <= i < |row| && row[i].value == m
    ensures forall i :: 0 <= i < |row| ==> row[i].value <= m
  {
    if |row| == 1 then row[0].value
    else
      var rest := MaxValue(row[1..]);
      if rest > row[0].value then rest else row[0].value
  }

  /** `q_table.get(s, {})`. */
  function RowAt(t: Table, s: StateKey): Row {
    if s in t then t[s] else []
  }

  /** Q(s, a), 0 when never stored. */
  function QValue(t: Table, s: StateKey, a: Uci): real {
    Get(RowAt(t, s), a)
  }

  /** The best stored value for s, or 0 when s has no row or an empty one. */
  function NextMax(t: Table, s: StateKey): real {
    if s in t && t[s] != [] then MaxValue(t[s]) else 0.0
  }

  /** The Bellman backup of a value towards the target reward + gamma * nextMax. */
  function Backup(oldValue: real, lr: real, gamma: real, reward: real, nextMax: real): real {
    oldValue + lr * (reward + gamma * nextMax - oldValue)
  }

  /**
   * With a learning rate in [0, 1] the backed-up value lies between the old
   * value and the target reward + gamma * nextMax.
   */
  lemma BackupBetween(oldValue: real, lr: real, gamma: real, reward: real, nextMax: real)
    requires 0.0 <= lr <= 1.0
    ensures var target := reward + gamma * nextMax;
      var v := Backup(oldValue, lr, gamma, reward, nextMax);
      && (oldValue <= target ==> oldValue <= v <= target)
      && (target <= oldValue ==> target <= v <= oldValue)
  {
    var target := reward + gamma * nextMax;
    var d := target - oldValue;
    assert Backup(oldValue, lr, gamma, reward, nextMax) == oldValue + lr * d;
    ScaleBetween(lr, d);
  }

  /** A fraction lr in [0, 1] of d lies between 0 and d. */
  lemma ScaleBetween(lr: real, d: real)
    requires 0.0 <= lr <= 1.0
    ensures d >= 0.0 ==> 0.0 <= lr * d <= d
    ensures d <= 0.0 ==> d <= lr * d <= 0.0
  {
    assert d - lr * d == (1.0 - lr) * d;
  }

  /** `update(s, a, reward, s2)` on table t with learning rate lr and discount gamma. */
  function Bellman(t: Table, lr: real, gamma: real, s: StateKey, a: Uci, reward: real, s2: StateKey): Table {
    var t1 := if s in t then t else t[s := []];
    var oldValue := Get(t1[s], a);
    var nextMax := NextMax(t1, s2);
    t1[s := Put(t1[s], a, Backup(oldValue, lr, gamma, reward, nextMax))]
  }

  /** Bellman written with the row of s and next_max read from the table as given. */
  lemma BellmanUnfold(t: Table, lr: real, gamma: real, s: StateKey, a: Uci, reward: real, s2: StateKey)
    ensures var row := RowAt(t, s);
      Bellman(t, lr, gamma, s, a, reward, s2)
        == t[s := Put(row, a, Backup(Get(row, a), lr, gamma, reward, NextMax(t, s2)))]
  {
    var t1 := if s in t then t else t[s := []];
    assert t1[s] == RowAt(t, s);
    assert NextMax(t1, s2) == NextMax(t, s2);
  }

  /**
   * The entry written is old + lr * (reward + gamma * next_max - old), where old
   * and next_max are read from the table before the call: creating the empty
   * row for s does not change next_max, even when s2 == s.
   */
  lemma BellmanWrites(t: Table, lr: real, gamma: real, s: StateKey, a: Uci, reward: real, s2: StateKey)
    ensures QValue(Bellman(t, lr, gamma, s, a, reward, s2), s, a)
        == Backup(QValue(t, s, a), lr, gamma, reward, NextMax(t, s2))
  {
    var row := RowAt(t, s);
    var v := Backup(Get(row, a), lr, gamma, reward, NextMax(t, s2));
    BellmanUnfold(t, lr, gamma, s, a, reward, s2);
    var t' := Bellman(t, lr, gamma, s, a, reward, s2);
    assert RowAt(t', s) == Put(row, a, v);
    assert Lookup(Put(row, a, v), a) == Some(v);
    assert QValue(t', s, a) == v;
    assert QValue(t, s, a) == Get(row, a);
  }

  /**
   * Only Q(s, a) changes: every other state's row is untouched, every other
   * action keeps its value, nothing is removed, the row for s keeps its order
   * and gains at most a at its end.
   */
  lemma BellmanFrame(t: Table, lr: real, gamma: real, s: StateKey, a: Uci, reward: real, s2: StateKey)
    ensures var t' := Bellman(t, lr, gamma, s, a, reward, s2);
      && t'.Keys == t.Keys + {s}
      && (forall s' :: s' in t && s' != s ==> t'[s'] == t[s'])
      && (forall b :: b != a ==> Lookup(t'[s], b) == Lookup(RowAt(t, s), b))
      && Lookup(t'[s], a).Some?
      && (forall i :: 0 <= i < |RowAt(t, s)| ==> t'[s][i].action == RowAt(t, s)[i].action)
      && (forall s', b :: (s', b) != (s, a) ==> QValue(t', s', b) == QValue(t, s', b))
  {
    var row := RowAt(t, s);
    var v := Backup(Get(row, a), lr, gamma, reward, NextMax(t, s2));
    var t' := Bellman(t, lr, gamma, s, a, reward, s2);
    BellmanUnfold(t, lr, gamma, s, a, reward, s2);
    assert t' == t[s := Put(row, a, v)];
    forall b | b != a
      ensures Lookup(t'[s], b) == Lookup(row, b)
    {
      PutOther(row, a, v, b);
    }
    forall s', b | (s', b) != (s, a)
      ensures QValue(t', s', b) == QValue(t, s', b)
    {
      if s' == s {
        PutOther(row, a, v, b);
      }
    }
  }

  /** If the target equals the current value, Q(s, a) is unchanged; if the entry existed, so is the table. */
  lemma BellmanFixedPoint(t: Table, lr: real, gamma: real, s: StateKey, a: Uci, reward: real, s2: StateKey)
    requires reward + gamma * NextMax(t, s2) == QValue(t, s, a)
    ensures QValue(Bellman(t, lr, gamma, s, a, reward, s2), s, a) == QValue(t, s, a)
    ensures s in t && Lookup(t[s], a).Some? ==> Bellman(t, lr, gamma, s, a, reward, s2) == t
  {
    var row := RowAt(t, s);
    var v := Backup(Get(row, a), lr, gamma, reward, NextMax(t, s2));
    assert reward + gamma * NextMax(t, s2) - Get(row, a) == 0.0;
    assert v == Get(row, a);
    BellmanUnfold(t, lr, gamma, s, a, reward, s2);
    if s in t && Lookup(t[s], a).Some? {
      PutSameValue(row, a);
      assert t[s := row] == t;
    }
  }

  /** With learning rate 1 the entry becomes the target reward + gamma * next_max. */
  lemma BellmanFullRate(t: Table, gamma: real, s: StateKey, a: Uci, reward: real, s2: StateKey)
    ensures QValue(Bellman(t, 1.0, gamma, s, a, reward, s2), s, a) == reward + gamma * NextMax(t, s2)
  {
    BellmanWrites(t, 1.0, gamma, s, a, reward, s2);
  }

  /** The update keeps every row a well-formed dict. */
  lemma BellmanKeepsValid(t: Table, lr: real, gamma: real, s: StateKey, a: Uci, reward: real, s2: StateKey)
    requires ValidTable(t)
    ensures ValidTable(Bellman(t, lr, gamma, s, a, reward, s2))
  {
    BellmanUnfold(t, lr, gamma, s, a, reward, s2);
    var row := RowAt(t, s);
    PutKeepsDistinct(row, a, Backup(Get(row, a), lr, gamma, reward, NextMax(t, s2)));
  }

  /** Writing back the value already stored leaves a row unchanged. */
  lemma {:induction false} PutSameValue(row: Row, a: Uci)
    requires Lookup(row, a).Some?
    ensures Put(row, a, Get(row, a)) == row
  {
    if row[0].action != a {
      PutSameValue(row[1..], a);
    }
  }

  /** Entry i of a row is legal (its action is one of the legal moves). */
  ghost predicate LegalEntry(row: Row, legal: seq<Uci>, i: int) {
    0 <= i < |row| && row[i].action in legal
  }

  /**
   * Entry i is what a "first strictly greater" scan over the legal entries
   * keeps: it is legal, no legal entry has a larger value, and every legal
   * entry before it has a strictly smaller one.
   */
  ghost predicate IsFirstBest(row: Row, legal: seq<Uci>, i: int) {
    && LegalEntry(row, legal, i)
    && (forall j :: LegalEntry(row, legal, j) ==> row[j].value <= row[i].value)
    && (forall j :: 0 <= j < i && LegalEntry(row, legal, j) ==> row[j].value < row[i].value)
  }

  /** The exploit choice is determined: at most one entry is the first best. */
  lemma FirstBestUnique(row: Row, legal: seq<Uci>, i: int, k: int)
    requires IsFirstBest(row, legal, i) && IsFirstBest(row, legal, k)
    ensures i == k
  {
  }

  /**
   * The index the exploit scan over a row keeps: entries are visited in order
   * and a legal entry replaces the current best only when strictly greater.
   * None when no entry is legal.
   */
  function FirstBest(row: Row, legal: seq<Uci>): (b: Option<nat>)
    ensures b.Some? ==> b.value < |row|
  {
    if row == [] then None
    else
      var last := |row| - 1;
      var b := FirstBest(row[..last], legal);
      if row[last].action in legal && (b.None? || row[last].value > row[b.value].value) then Some(last) else b
  }

  /**
   * The scan finds nothing exactly when no entry is legal, and otherwise finds
   * the first legal entry of greatest value.
   */
  lemma {:induction false} FirstBestCorrect(row: Row, legal: seq<Uci>)
    ensures FirstBest(row, legal).None? <==> forall j :: !LegalEntry(row, legal, j)
    ensures FirstBest(row, legal).Some? ==> IsFirstBest(row, legal, FirstBest(row, legal).value)
  {
    if row != [] {
      var last := |row| - 1;
      var init := row[..last];
      FirstBestCorrect(init, legal);
      assert forall j :: 0 <= j < last ==> init[j] == row[j];
      assert forall j :: LegalEntry(init, legal, j) <==> 0 <= j < last && LegalEntry(row, legal, j);
      if row[last].action in legal {
        assert LegalEntry(row, legal, last);
      } else {
        assert forall j :: LegalEntry(row, legal, j) ==> LegalEntry(init, legal, j);
      }
    }
  }
}
