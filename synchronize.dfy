/** The synchronization screen: the list it shows, and the refresh pass that
    either pushes the local suggestions to the server (moving unsynchronized
    ones to pending and writing the statuses back to the store) or pulls the
    server's suggestions into the store. The server's answers are inputs. */
module Synchronize {
  import opened Wrappers
  import opened Domain
  import opened AopdsDatabase

  // ------------------------------------------------------------ the list

  function Reversed<T>(xs: seq<T>): (r: seq<T>)
    ensures |r| == |xs| && forall i :: 0 <= i < |xs| ==> r[i] == xs[|xs| - 1 - i]
  {
    if xs == [] then [] else Reversed(xs[1..]) + [xs[0]]
  }

  lemma {:induction false} ReversedAppend<T>(a: seq<T>, b: seq<T>)
    ensures Reversed(a + b) == Reversed(b) + Reversed(a)
    decreases |a|
  {
    if a == [] {
      assert a + b == b;
    } else {
      assert (a + b)[1..] == a[1..] + b;
      ReversedAppend(a[1..], b);
    }
  }

  lemma {:induction false} ReversedTwice<T>(xs: seq<T>)
    ensures Reversed(Reversed(xs)) == xs
    decreases |xs|
  {
    if xs != [] {
      ReversedAppend(Reversed(xs[1..]), [xs[0]]);
      ReversedTwice(xs[1..]);
    }
  }

  lemma {:induction false} ReversedMultiset<T>(xs: seq<T>)
    ensures multiset(Reversed(xs)) == multiset(xs)
    decreases |xs|
  {
    if xs != [] {
      ReversedMultiset(xs[1..]);
      assert xs == [xs[0]] + xs[1..];
    }
  }

  function OrEmpty<T>(xs: Option<seq<T>>): seq<T> {
    if xs.Some? then xs.value else []
  }

  /** initGui: the modify/delete suggestions, then the additions, the whole
      list reversed; a lookup that found nothing contributes nothing. */
  function LocalList<T>(modifyDelete: Option<seq<T>>, add: Option<seq<T>>): (r: seq<T>)
    ensures multiset(r) == multiset(OrEmpty(modifyDelete)) + multiset(OrEmpty(add))
  {
    var all := OrEmpty(modifyDelete) + OrEmpty(add);
    ReversedMultiset(all);
    Reversed(all)
  }

  /** The additions come first, each group newest first. */
  lemma LocalListOrder<T>(modifyDelete: Option<seq<T>>, add: Option<seq<T>>)
    ensures LocalList(modifyDelete, add) == Reversed(OrEmpty(add)) + Reversed(OrEmpty(modifyDelete))
  {
    ReversedAppend(OrEmpty(modifyDelete), OrEmpty(add));
  }

  // -------------------------------------------------------- the partition

  function Statuses(ss: seq<Suggestion>): (r: seq<string>)
    reads ss
    ensures |r| == |ss| && forall i :: 0 <= i < |ss| ==> r[i] == ss[i].synchroStatus
  {
    seq(|ss|, i reads ss requires 0 <= i < |ss| => ss[i].synchroStatus)
  }

  function Ids(ss: seq<Suggestion>): (r: seq<int>)
    reads ss
    ensures |r| == |ss| && forall i :: 0 <= i < |ss| ==> r[i] == ss[i].id
  {
    seq(|ss|, i reads ss requires 0 <= i < |ss| => ss[i].id)
  }

  /** The elements among the first `n` of `xs` whose status in `sts` is
      `code`, in order. */
  function PickedUpTo<T>(xs: seq<T>, sts: seq<string>, code: string, n: nat): (r: seq<T>)
    requires |xs| == |sts| && n <= |xs|
    ensures |r| <= n
  {
    if n == 0 then []
    else PickedUpTo(xs, sts, code, n - 1) + (if sts[n - 1] == code then [xs[n - 1]] else [])
  }

  /** The elements of `xs` whose status in `sts` is `code`, in order. */
  function Picked<T>(xs: seq<T>, sts: seq<string>, code: string): seq<T>
    requires |xs| == |sts|
  {
    PickedUpTo(xs, sts, code, |xs|)
  }

  /** Whatever is picked sits at a position holding the code. */
  lemma {:induction false} PickedFrom<T>(xs: seq<T>, sts: seq<string>, code: string, n: nat, x: T)
    requires |xs| == |sts| && n <= |xs| && x in PickedUpTo(xs, sts, code, n)
    ensures exists i :: 0 <= i < n && xs[i] == x && sts[i] == code
  {
    if x in PickedUpTo(xs, sts, code, n - 1) {
      PickedFrom(xs, sts, code, n - 1, x);
    } else {
      assert xs[n - 1] == x && sts[n - 1] == code;
    }
  }

  /** Everything at a position holding the code is picked. */
  lemma {:induction false} PickedAll<T>(xs: seq<T>, sts: seq<string>, code: string, n: nat, i: nat)
    requires |xs| == |sts| && i < n <= |xs| && sts[i] == code
    ensures xs[i] in PickedUpTo(xs, sts, code, n)
  {
    if i < n - 1 {
      PickedAll(xs, sts, code, n - 1, i);
    }
  }

  /** The status of each suggestion after the pass: unsynchronized becomes
      pending, every other status stays. */
  function Transitioned(sts: seq<string>): (r: seq<string>)
    ensures |r| == |sts|
    ensures forall i :: 0 <= i < |sts| ==> r[i] == if sts[i] == STATUS_UNSYNCHRONIZED then STATUS_WAITING else sts[i]
  {
    seq(|sts|, i requires 0 <= i < |sts| => if sts[i] == STATUS_UNSYNCHRONIZED then STATUS_WAITING else sts[i])
  }

  /** No element occurs twice: the last one is new, and so on back. */
  predicate Distinct<T(==)>(xs: seq<T>) {
    xs == [] || (xs[|xs| - 1] !in xs[..|xs| - 1] && Distinct(xs[..|xs| - 1]))
  }

  /** Distinct elements sit at distinct positions, and conversely. */
  lemma {:induction false} DistinctIndices<T>(xs: seq<T>)
    ensures Distinct(xs) <==> forall i, j :: 0 <= i < j < |xs| ==> xs[i] != xs[j]
  {
    if xs != [] {
      var n := |xs| - 1;
      DistinctIndices(xs[..n]);
      if Distinct(xs) {
        forall i, j | 0 <= i < j < |xs| ensures xs[i] != xs[j] {
          if j == n {
            assert xs[i] == xs[..n][i];
          } else {
            assert xs[i] == xs[..n][i] && xs[j] == xs[..n][j];
          }
        }
      }
      if forall i, j :: 0 <= i < j < |xs| ==> xs[i] != xs[j] {
        assert forall i, j :: 0 <= i < j < n ==> xs[..n][i] != xs[..n][j];
      }
    }
  }

  /** The elements other than the one at `i` differ from it. */
  lemma DistinctExcept<T>(xs: seq<T>, i: nat)
    requires Distinct(xs) && i < |xs|
    ensures forall k :: 0 <= k < |xs| && k != i ==> xs[k] != xs[i]
  {
    DistinctIndices(xs);
  }

  /** The state of the partition loop after the first `i` suggestions:
      those are transitioned, the rest still hold their first status, and the
      two lists hold what the first `i` contributed. */
  predicate PartitionedUpTo(allSugg: seq<Suggestion>, sts: seq<string>, ids: seq<int>,
                            unSynchronized: seq<Suggestion>, pending: seq<int>, i: nat)
    reads allSugg
    requires |sts| == |allSugg| == |ids|
  {
    && i <= |allSugg|
    && (forall k {:trigger allSugg[k].synchroStatus} :: 0 <= k < i ==> allSugg[k].synchroStatus == Transitioned(sts)[k])
    && (forall k {:trigger allSugg[k].synchroStatus} :: i <= k < |allSugg| ==> allSugg[k].synchroStatus == sts[k])
    && (forall k {:trigger allSugg[k].id} :: 0 <= k < |allSugg| ==> allSugg[k].id == ids[k])
    && unSynchronized == PickedUpTo(allSugg, sts, STATUS_UNSYNCHRONIZED, i)
    && pending == PickedUpTo(ids, sts, STATUS_WAITING, i)
  }

  /** One pass of the partition loop's body, on the suggestion at `i`. */
  method PartitionStep(allSugg: seq<Suggestion>, ghost sts: seq<string>, ghost ids: seq<int>,
                       unSynchronized0: seq<Suggestion>, pending0: seq<int>, i: nat)
    returns (unSynchronized: seq<Suggestion>, pending: seq<int>)
    requires Distinct(allSugg) && |sts| == |allSugg| == |ids| && i < |allSugg|
    requires PartitionedUpTo(allSugg, sts, ids, unSynchronized0, pending0, i)
    modifies {allSugg[i]}`synchroStatus
    ensures PartitionedUpTo(allSugg, sts, ids, unSynchronized, pending, i + 1)
  {
    unSynchronized, pending := unSynchronized0, pending0;
    var current := allSugg[i];
    if current.synchroStatus == STATUS_UNSYNCHRONIZED {
      unSynchronized := unSynchronized + [current];
      DistinctExcept(allSugg, i);
      current.synchroStatus := STATUS_WAITING;
    } else if current.synchroStatus == STATUS_WAITING {
      pending := pending + [current.id];
    }
  }

  /** The partition loop of onRefresh: every unsynchronized suggestion turns
      pending and is collected to be sent; every suggestion already pending
      contributes its id; accepted and refused ones are left alone. The
      suggestions are distinct objects, one per row of the store. */
  method PartitionForPush(allSugg: seq<Suggestion>) returns (unSynchronized: seq<Suggestion>, pending: seq<int>)
    requires Distinct(allSugg)
    modifies (set s | s in allSugg)`synchroStatus
    ensures unSynchronized == Picked(allSugg, old(Statuses(allSugg)), STATUS_UNSYNCHRONIZED)
    ensures pending == Picked(old(Ids(allSugg)), old(Statuses(allSugg)), STATUS_WAITING)
    ensures Statuses(allSugg) == Transitioned(old(Statuses(allSugg)))
  {
    ghost var sts := Statuses(allSugg);
    ghost var ids := Ids(allSugg);
    unSynchronized := [];
    pending := [];
    var i := 0;
    while i < |allSugg|
      invariant PartitionedUpTo(allSugg, sts, ids, unSynchronized, pending, i)
    {
      unSynchronized, pending := PartitionStep(allSugg, sts, ids, unSynchronized, pending, i);
      i := i + 1;
    }
    PartitionDone(allSugg, sts, ids, unSynchronized, pending);
  }

  /** Once every suggestion is handled, the loop state is the promised one. */
  lemma PartitionDone(allSugg: seq<Suggestion>, sts: seq<string>, ids: seq<int>,
                      unSynchronized: seq<Suggestion>, pending: seq<int>)
    requires |sts| == |allSugg| == |ids|
    requires PartitionedUpTo(allSugg, sts, ids, unSynchronized, pending, |allSugg|)
    ensures unSynchronized == Picked(allSugg, sts, STATUS_UNSYNCHRONIZED)
    ensures pending == Picked(ids, sts, STATUS_WAITING)
    ensures Statuses(allSugg) == Transitioned(sts)
  {
    assert forall k :: 0 <= k < |allSugg| ==> Statuses(allSugg)[k] == Transitioned(sts)[k];
  }

  /** No suggestion is both sent and reported pending: with distinct ids, no
      id sent is also an id reported pending. */
  lemma SentNotPending(ids: seq<int>, sts: seq<string>)
    requires |ids| == |sts| && Distinct(ids)
    ensures forall x :: x in Picked(ids, sts, STATUS_UNSYNCHRONIZED) ==> x !in Picked(ids, sts, STATUS_WAITING)
  {
    DistinctIndices(ids);
    forall x | x in Picked(ids, sts, STATUS_UNSYNCHRONIZED) ensures x !in Picked(ids, sts, STATUS_WAITING) {
      PickedFrom(ids, sts, STATUS_UNSYNCHRONIZED, |ids|, x);
      if x in Picked(ids, sts, STATUS_WAITING) {
        PickedFrom(ids, sts, STATUS_WAITING, |ids|, x);
      }
    }
  }

  /** Each unsynchronized suggestion is sent, and the id of each pending one
      is reported. */
  lemma PartitionComplete(ss: seq<Suggestion>, ids: seq<int>, sts: seq<string>, i: nat)
    requires |ss| == |sts| == |ids| && i < |ss|
    ensures sts[i] == STATUS_UNSYNCHRONIZED ==> ss[i] in Picked(ss, sts, STATUS_UNSYNCHRONIZED)
    ensures sts[i] == STATUS_WAITING ==> ids[i] in Picked(ids, sts, STATUS_WAITING)
  {
    if sts[i] == STATUS_UNSYNCHRONIZED {
      PickedAll(ss, sts, STATUS_UNSYNCHRONIZED, |ss|, i);
    }
    if sts[i] == STATUS_WAITING {
      PickedAll(ids, sts, STATUS_WAITING, |ids|, i);
    }
  }

  /** Accepted and refused suggestions are neither sent nor changed. */
  lemma SettledUntouched(ss: seq<Suggestion>, sts: seq<string>, i: nat)
    requires |ss| == |sts| && Distinct(ss) && i < |ss|
    requires sts[i] != STATUS_UNSYNCHRONIZED && sts[i] != STATUS_WAITING
    ensures ss[i] !in Picked(ss, sts, STATUS_UNSYNCHRONIZED)
    ensures Transitioned(sts)[i] == sts[i]
  {
    DistinctExcept(ss, i);
    if ss[i] in Picked(ss, sts, STATUS_UNSYNCHRONIZED) {
      PickedFrom(ss, sts, STATUS_UNSYNCHRONIZED, |ss|, ss[i]);
    }
  }

  // ------------------------------------------------------- the write-back

  /** What one updateSuggestionSynchroStatus call writes: a row id and a
      status. */
  datatype StatusUpdate = StatusUpdate(id: int, status: string)

  function Updates(ss: seq<Suggestion>): (r: seq<StatusUpdate>)
    reads ss
    ensures |r| == |ss| && forall i :: 0 <= i < |ss| ==> r[i] == StatusUpdate(ss[i].id, ss[i].synchroStatus)
  {
    seq(|ss|, i reads ss requires 0 <= i < |ss| => StatusUpdate(ss[i].id, ss[i].synchroStatus))
  }

  /** The store after the updates, in order. */
  function Written(rows: map<int, SuggestionRow>, us: seq<StatusUpdate>): (r: map<int, SuggestionRow>)
    ensures r.Keys == rows.Keys
  {
    if us == [] then rows
    else
      var n := |us| - 1;
      WithStatus(Written(rows, us[..n]), us[n].id, us[n].status)
  }

  lemma WrittenSnoc(rows: map<int, SuggestionRow>, us: seq<StatusUpdate>, u: StatusUpdate)
    ensures Written(rows, us + [u]) == WithStatus(Written(rows, us), u.id, u.status)
  {
    assert (us + [u])[..|us|] == us;
  }

  lemma WrittenPrefix(rows: map<int, SuggestionRow>, us: seq<StatusUpdate>, i: nat)
    requires i < |us|
    ensures Written(rows, us[..i + 1]) == WithStatus(Written(rows, us[..i]), us[i].id, us[i].status)
  {
    assert us[..i + 1] == us[..i] + [us[i]];
    WrittenSnoc(rows, us[..i], us[i]);
  }

  /** A row no update names is left as it was. */
  lemma {:induction false} WrittenElsewhere(rows: map<int, SuggestionRow>, us: seq<StatusUpdate>, k: int)
    requires k in rows && forall i :: 0 <= i < |us| ==> us[i].id != k
    ensures Written(rows, us)[k] == rows[k]
    decreases |us|
  {
    if us != [] {
      WrittenElsewhere(rows, us[..|us| - 1], k);
    }
  }

  function UpdateIds(us: seq<StatusUpdate>): (r: seq<int>)
    ensures |r| == |us| && forall i :: 0 <= i < |us| ==> r[i] == us[i].id
  {
    seq(|us|, i requires 0 <= i < |us| => us[i].id)
  }

  /** With distinct ids, the row each update names ends with that update's
      status and is otherwise unchanged. */
  lemma {:induction false} WrittenStatus(rows: map<int, SuggestionRow>, us: seq<StatusUpdate>, i: nat)
    requires i < |us| && us[i].id in rows && Distinct(UpdateIds(us))
    ensures Written(rows, us)[us[i].id] == rows[us[i].id].(synchroStatus := us[i].status)
    decreases |us|
  {
    var n := |us| - 1;
    assert UpdateIds(us[..n]) == UpdateIds(us)[..n];
    if i == n {
      WrittenElsewhere(rows, us[..n], us[i].id);
    } else {
      WrittenStatus(rows, us[..n], i);
    }
  }

  /** When every update carries the same status, every row they name ends
      with that status, ids repeated or not. */
  lemma {:induction false} WrittenUniform(rows: map<int, SuggestionRow>, us: seq<StatusUpdate>, status: string, i: nat)
    requires i < |us| && us[i].id in rows
    requires forall k :: 0 <= k < |us| ==> us[k].status == status
    ensures Written(rows, us)[us[i].id].synchroStatus == status
    decreases |us|
  {
    var n := |us| - 1;
    if i < n && us[n].id != us[i].id {
      WrittenUniform(rows, us[..n], status, i);
    }
  }

  /** One pass of the write-back loop, on the suggestion at `i`. */
  method WriteBackStep(data: Database, ss: seq<Suggestion>, ghost rows: map<int, SuggestionRow>,
                       ghost us: seq<StatusUpdate>, i: nat)
    requires us == Updates(ss) && i < |ss|
    requires data.suggestions == Written(rows, us[..i])
    modifies data`suggestions
    ensures data.suggestions == Written(rows, us[..i + 1])
  {
    var _ := data.UpdateSuggestionSynchroStatus(ss[i]);
    WrittenPrefix(rows, us, i);
  }

  /** One updateSuggestionSynchroStatus per suggestion of the list, in order. */
  method WriteBack(data: Database, ss: seq<Suggestion>)
    modifies data`suggestions
    ensures data.suggestions == Written(old(data.suggestions), Updates(ss))
  {
    ghost var us := Updates(ss);
    var i := 0;
    while i < |ss|
      invariant 0 <= i <= |ss| && us == Updates(ss)
      invariant data.suggestions == Written(old(data.suggestions), us[..i])
    {
      WriteBackStep(data, ss, old(data.suggestions), us, i);
      i := i + 1;
    }
    assert us[..|ss|] == us;
  }

  /** The id the server returns when it found no pending suggestion. */
  const NOT_FOUND: int := -1

  /** The updates that name a row, in order. */
  function Answered(us: seq<StatusUpdate>): (r: seq<StatusUpdate>)
    ensures forall i :: 0 <= i < |r| ==> r[i].id != NOT_FOUND
  {
    if us == [] then []
    else
      var n := |us| - 1;
      Answered(us[..n]) + (if us[n].id != NOT_FOUND then [us[n]] else [])
  }

  /** Every update that names a row is kept. */
  lemma {:induction false} AnsweredKeeps(us: seq<StatusUpdate>, i: nat)
    requires i < |us| && us[i].id != NOT_FOUND
    ensures us[i] in Answered(us)
    decreases |us|
  {
    var n := |us| - 1;
    if i < n {
      AnsweredKeeps(us[..n], i);
    }
  }

  lemma AnsweredSnoc(us: seq<StatusUpdate>, i: nat)
    requires i < |us|
    ensures Answered(us[..i + 1]) == Answered(us[..i]) + if us[i].id != NOT_FOUND then [us[i]] else []
  {
    assert us[..i + 1][..i] == us[..i];
  }

  /** One pass of the loop over the server's answer, on the entry at `i`. */
  method WriteBackAnswerStep(data: Database, returned: seq<Suggestion>, ghost rows: map<int, SuggestionRow>,
                             ghost us: seq<StatusUpdate>, i: nat)
    requires us == Updates(returned) && i < |returned|
    requires data.suggestions == Written(rows, Answered(us[..i]))
    modifies data`suggestions
    ensures data.suggestions == Written(rows, Answered(us[..i + 1]))
  {
    var current := returned[i];
    AnsweredSnoc(us, i);
    if current.id != NOT_FOUND {
      var _ := data.UpdateSuggestionSynchroStatus(current);
      WrittenSnoc(rows, Answered(us[..i]), us[i]);
      assert Answered(us[..i + 1]) == Answered(us[..i]) + [us[i]];
    } else {
      assert Answered(us[..i + 1]) == Answered(us[..i]);
    }
  }

  /** The loop over the server's answer: entries with the not-found id only
      raise a dialog; every other entry has its status written. */
  method WriteBackAnswer(data: Database, returned: seq<Suggestion>)
    modifies data`suggestions
    ensures data.suggestions == Written(old(data.suggestions), Answered(Updates(returned)))
  {
    ghost var us := Updates(returned);
    var i := 0;
    while i < |returned|
      invariant 0 <= i <= |returned| && us == Updates(returned)
      invariant data.suggestions == Written(old(data.suggestions), Answered(us[..i]))
    {
      WriteBackAnswerStep(data, returned, old(data.suggestions), us, i);
      i := i + 1;
    }
    assert us[..|returned|] == us;
  }

  /** The not-found marker never reaches the store. */
  lemma NotFoundNeverWritten(rows: map<int, SuggestionRow>, us: seq<StatusUpdate>)
    requires NOT_FOUND in rows
    ensures Written(rows, Answered(us))[NOT_FOUND] == rows[NOT_FOUND]
  {
    WrittenElsewhere(rows, Answered(us), NOT_FOUND);
  }

  // ------------------------------------------------------------- the pull

  /** The rows addSuggestion builds for the suggestions, in order. */
  function InsertedRows(ss: seq<Suggestion>): (r: seq<SuggestionRow>)
    reads ss
    ensures |r| == |ss| && forall i :: 0 <= i < |ss| ==> r[i] == InsertedRow(ss[i])
  {
    seq(|ss|, i reads ss requires 0 <= i < |ss| => InsertedRow(ss[i]))
  }

  /** The store after inserting each row under its id, in order. */
  function InsertAll(rows: map<int, SuggestionRow>, newRows: seq<SuggestionRow>, ids: seq<int>): (r: map<int, SuggestionRow>)
    requires |newRows| == |ids|
  {
    if ids == [] then rows
    else
      var n := |ids| - 1;
      InsertAll(rows, newRows[..n], ids[..n])[ids[n] := newRows[n]]
  }

  /** The store after the inserts holds the rows it held and the inserted ids. */
  lemma {:induction false} InsertAllKeys(rows: map<int, SuggestionRow>, newRows: seq<SuggestionRow>, ids: seq<int>)
    requires |newRows| == |ids|
    ensures forall k :: k in InsertAll(rows, newRows, ids) <==> k in rows || k in ids
    decreases |ids|
  {
    if ids != [] {
      var n := |ids| - 1;
      InsertAllKeys(rows, newRows[..n], ids[..n]);
      assert forall k :: k in ids <==> k in ids[..n] || k == ids[n];
    }
  }

  lemma InsertAllSnoc(rows: map<int, SuggestionRow>, newRows: seq<SuggestionRow>, ids: seq<int>, i: nat)
    requires |newRows| == |ids| && i < |ids|
    ensures InsertAll(rows, newRows[..i + 1], ids[..i + 1]) == InsertAll(rows, newRows[..i], ids[..i])[ids[i] := newRows[i]]
  {
    assert newRows[..i + 1][..i] == newRows[..i] && ids[..i + 1][..i] == ids[..i];
  }

  /** With distinct ids, each inserted row is found under its id. */
  lemma {:induction false} InsertAllFinds(rows: map<int, SuggestionRow>, newRows: seq<SuggestionRow>, ids: seq<int>, i: nat)
    requires |newRows| == |ids| && i < |ids| && Distinct(ids)
    ensures ids[i] in InsertAll(rows, newRows, ids) && InsertAll(rows, newRows, ids)[ids[i]] == newRows[i]
    decreases |ids|
  {
    InsertAllKeys(rows, newRows, ids);
    var n := |ids| - 1;
    if i < n {
      InsertAllFinds(rows, newRows[..n], ids[..n], i);
    }
  }

  /** Rows with ids not inserted are left as they were. */
  lemma {:induction false} InsertAllKeeps(rows: map<int, SuggestionRow>, newRows: seq<SuggestionRow>, ids: seq<int>, k: int)
    requires |newRows| == |ids| && k in rows && k !in ids
    ensures k in InsertAll(rows, newRows, ids) && InsertAll(rows, newRows, ids)[k] == rows[k]
    decreases |ids|
  {
    InsertAllKeys(rows, newRows, ids);
    if ids != [] {
      var n := |ids| - 1;
      assert k !in ids[..n];
      InsertAllKeeps(rows, newRows[..n], ids[..n], k);
    }
  }

  /** The number of inserts before the first refused one. */
  function Accepted(insertResults: seq<int>): (n: nat)
    ensures n <= |insertResults|
    ensures forall i :: 0 <= i < n ==> insertResults[i] >= 0
    ensures n < |insertResults| ==> insertResults[n] < 0
  {
    if insertResults == [] then 0
    else if insertResults[0] < 0 then 0
    else 1 + Accepted(insertResults[1..])
  }

  /** The store's answers to the inserts: fresh, distinct row ids, or a
      negative value for a refused row. */
  predicate FreshRowIds(rows: map<int, SuggestionRow>, insertResults: seq<int>) {
    (forall i :: 0 <= i < |insertResults| && insertResults[i] >= 0 ==> insertResults[i] !in rows)
    && forall i, j :: 0 <= i < j < |insertResults| && insertResults[i] >= 0 ==> insertResults[i] != insertResults[j]
  }

  /** The id of the next insert is new to the store built so far. */
  lemma FreshAt(rows: map<int, SuggestionRow>, newRows: seq<SuggestionRow>, insertResults: seq<int>, i: nat)
    requires FreshRowIds(rows, insertResults) && |newRows| == |insertResults| && i < |insertResults|
    requires forall k :: 0 <= k <= i ==> insertResults[k] >= 0
    ensures insertResults[i] !in InsertAll(rows, newRows[..i], insertResults[..i])
  {
    InsertAllKeys(rows, newRows[..i], insertResults[..i]);
    assert forall k :: 0 <= k < i ==> insertResults[..i][k] != insertResults[i];
  }

  /** The state of the pull loop after the first `i` inserts: they are in
      the store, and those suggestions carry their new ids. */
  predicate PulledUpTo(data: Database, fromServer: seq<Suggestion>, insertResults: seq<int>,
                       start: map<int, SuggestionRow>, newRows: seq<SuggestionRow>, ids0: seq<int>, i: nat)
    reads data, fromServer
    requires |insertResults| == |fromServer| == |newRows| == |ids0| && i <= |fromServer|
  {
    && data.suggestions == InsertAll(start, newRows[..i], insertResults[..i])
    && forall k {:trigger fromServer[k].id} :: 0 <= k < |fromServer| ==> fromServer[k].id == if k < i then insertResults[k] else ids0[k]
  }

  /** One pass of the pull loop, on the suggestion at `i`. */
  method PullStep(data: Database, fromServer: seq<Suggestion>, insertResults: seq<int>,
                  ghost start: map<int, SuggestionRow>, ghost newRows: seq<SuggestionRow>, ghost ids0: seq<int>, i: nat)
    returns (r: Outcome<DbError>)
    requires |insertResults| == |fromServer| == |newRows| == |ids0| && i < |fromServer| && Distinct(fromServer)
    requires FreshRowIds(start, insertResults) && forall k :: 0 <= k < i ==> insertResults[k] >= 0
    requires PulledUpTo(data, fromServer, insertResults, start, newRows, ids0, i)
    requires InsertedRow(fromServer[i]) == newRows[i]
    modifies data`suggestions, {fromServer[i]}`id
    ensures r.Fail? <==> insertResults[i] < 0
    ensures r.Fail? ==> r.error == DataBaseRuntime && PulledUpTo(data, fromServer, insertResults, start, newRows, ids0, i)
    ensures r.Pass? ==> PulledUpTo(data, fromServer, insertResults, start, newRows, ids0, i + 1)
  {
    var current := fromServer[i];
    if insertResults[i] >= 0 {
      FreshAt(start, newRows, insertResults, i);
    }
    DistinctExcept(fromServer, i);
    ghost var before := data.suggestions;
    r := data.AddSuggestion(current, insertResults[i]);
    if r.Pass? {
      assert data.suggestions == before[insertResults[i] := newRows[i]];
      InsertAllSnoc(start, newRows, insertResults, i);
    }
  }

  /** The pull loop: each suggestion of the server is added to the store;
      a refused insert throws and ends the pass. */
  method PullAll(data: Database, fromServer: seq<Suggestion>, insertResults: seq<int>) returns (r: Outcome<DbError>)
    requires |insertResults| == |fromServer| && Distinct(fromServer)
    requires FreshRowIds(data.suggestions, insertResults)
    modifies data`suggestions, (set s | s in fromServer)`id
    ensures r.Pass? <==> Accepted(insertResults) == |fromServer|
    ensures r.Fail? ==> r.error == DataBaseRuntime
    ensures var n := Accepted(insertResults);
            data.suggestions == InsertAll(old(data.suggestions), old(InsertedRows(fromServer))[..n], insertResults[..n])
    ensures var n := Accepted(insertResults);
            forall i :: 0 <= i < |fromServer| ==> fromServer[i].id == if i < n then insertResults[i] else old(fromServer[i].id)
  {
    ghost var newRows := InsertedRows(fromServer);
    ghost var ids0 := Ids(fromServer);
    ghost var n := Accepted(insertResults);
    var i := 0;
    while i < |fromServer|
      invariant 0 <= i <= n
      invariant PulledUpTo(data, fromServer, insertResults, old(data.suggestions), newRows, ids0, i)
    {
      r := PullStep(data, fromServer, insertResults, old(data.suggestions), newRows, ids0, i);
      if r.Fail? {
        assert i == n;
        return;
      }
      assert i < n;
      i := i + 1;
    }
    assert i == n;
    r := Pass;
  }

  /** When the store accepts every insert, each server suggestion is found
      in the store under its new id, and the rows that were there stay. */
  lemma PulledAll(rows: map<int, SuggestionRow>, newRows: seq<SuggestionRow>, insertResults: seq<int>)
    requires |newRows| == |insertResults| && Accepted(insertResults) == |insertResults|
    requires FreshRowIds(rows, insertResults)
    ensures var after := InsertAll(rows, newRows, insertResults);
            (forall i :: 0 <= i < |newRows| ==> insertResults[i] in after && after[insertResults[i]] == newRows[i])
            && forall k :: k in rows ==> k in after && after[k] == rows[k]
  {
    var n := |insertResults|;
    DistinctIndices(insertResults);
    forall i | 0 <= i < n ensures insertResults[i] in InsertAll(rows, newRows, insertResults) && InsertAll(rows, newRows, insertResults)[insertResults[i]] == newRows[i] {
      InsertAllFinds(rows, newRows, insertResults, i);
    }
    forall k | k in rows ensures k in InsertAll(rows, newRows, insertResults) && InsertAll(rows, newRows, insertResults)[k] == rows[k] {
      InsertAllKeeps(rows, newRows, insertResults, k);
    }
  }

  // ---------------------------------------------------------- the refresh

  datatype Refresh =
    | NotConnected                                                  // dialog only
    | ServiceFailed                                                 // the count or the pull request failed
    | Pushed(unSynchronized: seq<Suggestion>, pending: seq<int>)    // push branch
    | Pulled(outcome: Outcome<DbError>)                             // pull branch

  /** A user counts as connected when there is one and it has an email. */
  predicate Connected(user: Option<User>) {
    user.Some? && user.value.email.Some?
  }

  /** Chooses the branch of onRefresh: push when the store holds at least as
      many suggestions as the server reports, pull otherwise. */
  function Branch(user: Option<User>, localCount: nat, nbSuggServer: int): (r: string)
    ensures r == "none" <==> !Connected(user)
    ensures r == "push" <==> Connected(user) && localCount >= nbSuggServer
    ensures r == "pull" <==> Connected(user) && localCount < nbSuggServer
  {
    if !Connected(user) then "none" else if localCount >= nbSuggServer then "push" else "pull"
  }

  /** What a request of the service client gives back: it throws (`Threw`),
      it returns null because the envelope held no value (`NoValue`), or it
      returns a value. After a null answer to synchronizeSuggestions,
      onRefresh writes the sent statuses and then stops on a null
      dereference; after a null answer to getAllSuggestion it stops on a null
      dereference before writing anything. */
  datatype ServiceAnswer<T> = Threw | NoValue | Returned(answer: T)

  /** The list a pull request delivered; none when it failed. */
  function PulledList(a: ServiceAnswer<seq<Suggestion>>): seq<Suggestion> {
    if a.Returned? then a.answer else []
  }

  /** The push branch of onRefresh: the partition; then, unless the call
      threw, the write-back of the sent suggestions; then, when a list came
      back, the write-back of that answer. */
  method Push(data: Database, allSugg: seq<Suggestion>, pushAnswer: ServiceAnswer<seq<Suggestion>>)
    returns (unSynchronized: seq<Suggestion>, pending: seq<int>)
    requires Distinct(allSugg)
    modifies data`suggestions, (set s | s in allSugg)`synchroStatus
    ensures Statuses(allSugg) == Transitioned(old(Statuses(allSugg)))
    ensures unSynchronized == Picked(allSugg, old(Statuses(allSugg)), STATUS_UNSYNCHRONIZED)
    ensures pending == Picked(old(Ids(allSugg)), old(Statuses(allSugg)), STATUS_WAITING)
    ensures pushAnswer.Threw? ==> data.suggestions == old(data.suggestions)
    ensures pushAnswer.NoValue? ==> data.suggestions == Written(old(data.suggestions), Updates(unSynchronized))
    ensures pushAnswer.Returned? ==>
              data.suggestions == Written(Written(old(data.suggestions), Updates(unSynchronized)), Answered(Updates(pushAnswer.answer)))
  {
    unSynchronized, pending := PartitionForPush(allSugg);
    match pushAnswer {
      case Threw =>
      case NoValue =>
        WriteBack(data, unSynchronized);
      case Returned(answer) =>
        WriteBoth(data, unSynchronized, answer);
    }
  }

  /** The two write-backs of the push branch: the sent suggestions, then the
      server's answer. */
  method WriteBoth(data: Database, sent: seq<Suggestion>, answer: seq<Suggestion>)
    modifies data`suggestions
    ensures data.suggestions == Written(Written(old(data.suggestions), Updates(sent)), Answered(Updates(answer)))
  {
    ghost var us := Updates(sent);
    WriteBack(data, sent);
    assert us == Updates(sent);
    WriteBackAnswer(data, answer);
    assert us == Updates(sent);
  }

  /** onRefresh. The server's suggestion count (None when that request
      throws), its answer to the push and its answer to the pull are inputs,
      and so are the store's answers to the inserts. */
  method OnRefresh(data: Database, allSugg: seq<Suggestion>, user: Option<User>, nbSuggServer: Option<int>,
                   pushAnswer: ServiceAnswer<seq<Suggestion>>, pullAnswer: ServiceAnswer<seq<Suggestion>>,
                   insertResults: seq<int>)
    returns (r: Refresh)
    requires Distinct(allSugg) && Distinct(PulledList(pullAnswer)) && |insertResults| == |PulledList(pullAnswer)|
    requires FreshRowIds(data.suggestions, insertResults)
    modifies data`suggestions, (set s | s in allSugg)`synchroStatus, (set s | s in PulledList(pullAnswer))`id
    ensures r.NotConnected? <==> !Connected(user)
    ensures r.ServiceFailed? <==>
              Connected(user) && (nbSuggServer.None? || (|allSugg| < nbSuggServer.value && !pullAnswer.Returned?))
    ensures r.Pushed? <==> nbSuggServer.Some? && Branch(user, |allSugg|, nbSuggServer.value) == "push"
    ensures r.Pulled? <==> nbSuggServer.Some? && Branch(user, |allSugg|, nbSuggServer.value) == "pull" && pullAnswer.Returned?
    ensures r.NotConnected? || r.ServiceFailed? ==>
              data.suggestions == old(data.suggestions) && Statuses(allSugg) == old(Statuses(allSugg))
    ensures r.Pushed? ==> Statuses(allSugg) == Transitioned(old(Statuses(allSugg)))
    ensures r.Pushed? ==> r.unSynchronized == Picked(allSugg, old(Statuses(allSugg)), STATUS_UNSYNCHRONIZED)
    ensures r.Pushed? ==> r.pending == Picked(old(Ids(allSugg)), old(Statuses(allSugg)), STATUS_WAITING)
    ensures r.Pushed? && pushAnswer.Threw? ==> data.suggestions == old(data.suggestions)
    ensures r.Pushed? && pushAnswer.NoValue? ==> data.suggestions == Written(old(data.suggestions), Updates(r.unSynchronized))
    ensures r.Pushed? && pushAnswer.Returned? ==>
              data.suggestions == Written(Written(old(data.suggestions), Updates(r.unSynchronized)), Answered(Updates(pushAnswer.answer)))
    ensures r.Pulled? ==> Statuses(allSugg) == old(Statuses(allSugg))
    ensures r.Pulled? ==> var n := Accepted(insertResults);
              data.suggestions == InsertAll(old(data.suggestions), old(InsertedRows(PulledList(pullAnswer)))[..n], insertResults[..n])
  {
    if !Connected(user) {
      return NotConnected;
    }
    if nbSuggServer.None? {
      return ServiceFailed;
    }
    if |allSugg| >= nbSuggServer.value {
      var unSynchronized, pending := Push(data, allSugg, pushAnswer);
      return Pushed(unSynchronized, pending);
    }
    if !pullAnswer.Returned? {
      return ServiceFailed;
    }
    var outcome := PullAll(data, pullAnswer.answer, insertResults);
    return Pulled(outcome);
  }
}
