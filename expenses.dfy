/**
 * The expense records the dashboard caches and the three list transformations
 * its handlers apply: append after a create, filter after a delete, and map
 * with an overlay after an update. Every field, the amount included, is text:
 * the page never converts the amount to a number.
 */
module Expenses {
  import opened Wrappers

  /** The server-assigned identifier; handlers compare ids with `===` / `!==`. */
  type ExpenseId = int

  /** A record as the server returns it. */
  datatype Expense = Expense(id: ExpenseId, title: string, amount: string, category: string, date: string)

  /** The four editable fields, sent as the body of a create or an update. */
  datatype Fields = Fields(title: string, amount: string, category: string, date: string)

  /** The four answers to the update prompts; a cancelled prompt is None. */
  datatype Prompts = Prompts(title: Option<string>, amount: Option<string>, category: Option<string>, date: Option<string>)

  // ---------------------------------------------------------------------------
  // Presence checks: JavaScript's `!s` holds of '' and of a cancelled prompt.
  // ---------------------------------------------------------------------------

  /** A draft field is present when it is not the empty string. */
  predicate Present(s: string) {
    s != []
  }

  /** The add form may be submitted only when every field is present. */
  predicate Complete(f: Fields) {
    Present(f.title) && Present(f.amount) && Present(f.category) && Present(f.date)
  }

  /** A prompt was answered when it was not cancelled and not left empty. */
  predicate Answered(o: Option<string>) {
    o.Some? && Present(o.value)
  }

  /**
   * The fields an update sends, or None when any prompt was cancelled or
   * left empty (in which case the handler returns before any request).
   */
  function Collect(p: Prompts): (r: Option<Fields>)
    ensures r.Some? <==> Answered(p.title) && Answered(p.amount) && Answered(p.category) && Answered(p.date)
    ensures r.Some? ==> Complete(r.value)
    ensures r.Some? ==> r.value == Fields(p.title.value, p.amount.value, p.category.value, p.date.value)
  {
    if Answered(p.title) && Answered(p.amount) && Answered(p.category) && Answered(p.date) then
      Some(Fields(p.title.value, p.amount.value, p.category.value, p.date.value))
    else
      None
  }

  // ---------------------------------------------------------------------------
  // Identifiers
  // ---------------------------------------------------------------------------

  /** The ids of a list, in list order. */
  function Ids(xs: seq<Expense>): (r: seq<ExpenseId>)
    ensures |r| == |xs|
    ensures forall i :: 0 <= i < |xs| ==> r[i] == xs[i].id
  {
    seq(|xs|, i requires 0 <= i < |xs| => xs[i].id)
  }

  /** No id occurs in `xs` twice: what the server is expected to guarantee. */
  ghost predicate UniqueIds(xs: seq<Expense>) {
    forall i, j :: 0 <= i < j < |xs| ==> xs[i].id != xs[j].id
  }

  /** No element of `xs` carries `id`. */
  ghost predicate Absent(xs: seq<Expense>, id: ExpenseId) {
    forall e :: e in xs ==> e.id != id
  }

  // ---------------------------------------------------------------------------
  // Append: `[...expenses, res.data]`
  // ---------------------------------------------------------------------------

  /** The list after a successful create: the old list, then the server's record. */
  function Appended(xs: seq<Expense>, e: Expense): (r: seq<Expense>)
    ensures |r| == |xs| + 1
    ensures r[..|xs|] == xs && r[|xs|] == e
  {
    xs + [e]
  }

  /** Appending keeps ids unique exactly when the new record's id is fresh. */
  lemma {:induction false} AppendedUnique(xs: seq<Expense>, e: Expense)
    ensures UniqueIds(Appended(xs, e)) <==> UniqueIds(xs) && Absent(xs, e.id)
  {
    var r := Appended(xs, e);
    if UniqueIds(r) {
      forall i, j | 0 <= i < j < |xs| ensures xs[i].id != xs[j].id {
        assert r[i] == xs[i] && r[j] == xs[j];
      }
      forall x | x in xs ensures x.id != e.id {
        var i :| 0 <= i < |xs| && xs[i] == x;
        assert r[i] == x && r[|xs|] == e;
      }
    }
    if UniqueIds(xs) && Absent(xs, e.id) {
      forall i, j | 0 <= i < j < |r| ensures r[i].id != r[j].id {
        assert r[i] == xs[i];
        if j == |xs| {
          assert xs[i] in xs;
        } else {
          assert r[j] == xs[j];
        }
      }
    }
  }

  // ---------------------------------------------------------------------------
  // Remove by id: `expenses.filter((e) => e.id !== id)`
  // ---------------------------------------------------------------------------

  /** The list after a successful delete: every record whose id is `id` dropped. */
  function RemoveId(xs: seq<Expense>, id: ExpenseId): (r: seq<Expense>)
    ensures |r| <= |xs|
  {
    if xs == [] then []
    else if xs[0].id != id then [xs[0]] + RemoveId(xs[1..], id)
    else RemoveId(xs[1..], id)
  }

  /** A record survives a delete exactly when it was listed under another id. */
  lemma {:induction false} RemoveIdMembers(xs: seq<Expense>, id: ExpenseId, e: Expense)
    ensures e in RemoveId(xs, id) <==> e in xs && e.id != id
  {
    if xs != [] {
      RemoveIdMembers(xs[1..], id, e);
      assert xs == [xs[0]] + xs[1..];
    }
  }

  /** `s` is `t` with some elements left out and the rest in their order. */
  ghost predicate IsSubsequence(s: seq<Expense>, t: seq<Expense>)
    decreases |t|
  {
    s == [] ||
    (t != [] && ((s[0] == t[0] && IsSubsequence(s[1..], t[1..])) || IsSubsequence(s, t[1..])))
  }

  /** The survivors of a delete keep their relative order. */
  lemma {:induction false} RemoveIdKeepsOrder(xs: seq<Expense>, id: ExpenseId)
    ensures IsSubsequence(RemoveId(xs, id), xs)
  {
    if xs != [] {
      RemoveIdKeepsOrder(xs[1..], id);
      var rest := RemoveId(xs[1..], id);
      if xs[0].id != id {
        assert ([xs[0]] + rest)[1..] == rest;
      }
    }
  }

  /**
   * A delete drops every copy of a record with the given id and keeps every
   * other record exactly as often as it occurred.
   */
  lemma {:induction false} RemoveIdMultiplicity(xs: seq<Expense>, id: ExpenseId, e: Expense)
    ensures multiset(RemoveId(xs, id))[e] == if e.id == id then 0 else multiset(xs)[e]
  {
    if xs != [] {
      RemoveIdMultiplicity(xs[1..], id, e);
      assert xs == [xs[0]] + xs[1..];
      assert multiset(xs) == multiset([xs[0]]) + multiset(xs[1..]);
      if xs[0].id != id {
        assert multiset([xs[0]] + RemoveId(xs[1..], id)) == multiset([xs[0]]) + multiset(RemoveId(xs[1..], id));
      }
    }
  }

  /** Deleting an id that no record carries changes nothing. */
  lemma {:induction false} RemoveIdAbsent(xs: seq<Expense>, id: ExpenseId)
    requires Absent(xs, id)
    ensures RemoveId(xs, id) == xs
  {
    if xs != [] {
      assert xs[0] in xs;
      assert forall e :: e in xs[1..] ==> e in xs;
      RemoveIdAbsent(xs[1..], id);
      assert xs == [xs[0]] + xs[1..];
    }
  }

  /** Deleting the same id twice is the same as deleting it once. */
  lemma {:induction false} RemoveIdIdempotent(xs: seq<Expense>, id: ExpenseId)
    ensures RemoveId(RemoveId(xs, id), id) == RemoveId(xs, id)
  {
    forall e | e in RemoveId(xs, id) ensures e.id != id {
      RemoveIdMembers(xs, id, e);
    }
    RemoveIdAbsent(RemoveId(xs, id), id);
  }

  /**
   * With unique ids, deleting the id of the record at `k` removes exactly that
   * record and nothing else.
   */
  lemma RemoveIdUnique(xs: seq<Expense>, k: nat)
    requires UniqueIds(xs)
    requires k < |xs|
    ensures RemoveId(xs, xs[k].id) == xs[..k] + xs[k + 1..]
  {
    RemoveIdOnlyAt(xs, xs[k].id, k);
  }

  /** Deleting an id that occurs only at position `k` removes exactly that position. */
  lemma {:induction false} RemoveIdOnlyAt(xs: seq<Expense>, id: ExpenseId, k: nat)
    requires k < |xs| && xs[k].id == id
    requires forall j :: 0 <= j < |xs| && j != k ==> xs[j].id != id
    ensures RemoveId(xs, id) == xs[..k] + xs[k + 1..]
  {
    var tail := xs[1..];
    if k == 0 {
      forall e | e in tail ensures e.id != id {
        var j :| 0 <= j < |tail| && tail[j] == e;
        assert xs[j + 1] == e;
      }
      RemoveIdAbsent(tail, id);
    } else {
      assert forall j :: 0 <= j < |tail| && j != k - 1 ==> tail[j] == xs[j + 1];
      RemoveIdOnlyAt(tail, id, k - 1);
      assert tail[..k - 1] == xs[1..k] && tail[k..] == xs[k + 1..];
      assert [xs[0]] + xs[1..k] == xs[..k];
    }
  }

  /** Dropping one position from a list with unique ids leaves its ids unique. */
  lemma UniqueWithout(xs: seq<Expense>, k: nat)
    requires UniqueIds(xs)
    requires k < |xs|
    ensures UniqueIds(xs[..k] + xs[k + 1..])
  {
    var r := xs[..k] + xs[k + 1..];
    assert forall i :: 0 <= i < k ==> r[i] == xs[i];
    assert forall i :: k <= i < |r| ==> r[i] == xs[i + 1];
  }

  /** Deleting from a list with unique ids leaves its ids unique. */
  lemma RemoveIdKeepsUnique(xs: seq<Expense>, id: ExpenseId)
    requires UniqueIds(xs)
    ensures UniqueIds(RemoveId(xs, id))
  {
    var k := 0;
    while k < |xs| && xs[k].id != id
      invariant k <= |xs|
      invariant forall j :: 0 <= j < k ==> xs[j].id != id
    {
      k := k + 1;
    }
    if k < |xs| {
      RemoveIdUnique(xs, k);
      UniqueWithout(xs, k);
    } else {
      assert Absent(xs, id);
      RemoveIdAbsent(xs, id);
    }
  }

  // ---------------------------------------------------------------------------
  // Replace by id: `expenses.map(e => e.id === expense.id ? {...expense, ...updated} : e)`
  // ---------------------------------------------------------------------------

  /** `{...e, ...f}`: the record `e` with its four editable fields taken from `f`. */
  function Overlay(e: Expense, f: Fields): Expense {
    Expense(e.id, f.title, f.amount, f.category, f.date)
  }

  /** The list with every record whose id is `id` replaced by `v`. */
  function ReplaceId(xs: seq<Expense>, id: ExpenseId, v: Expense): (r: seq<Expense>)
    ensures |r| == |xs|
  {
    if xs == [] then []
    else [if xs[0].id == id then v else xs[0]] + ReplaceId(xs[1..], id, v)
  }

  /** Position by position, a record is replaced exactly when its id matches. */
  lemma {:induction false} ReplaceIdAt(xs: seq<Expense>, id: ExpenseId, v: Expense, k: nat)
    requires k < |xs|
    ensures ReplaceId(xs, id, v)[k] == if xs[k].id == id then v else xs[k]
  {
    if k > 0 {
      ReplaceIdAt(xs[1..], id, v, k - 1);
    }
  }

  /** Every position of an update's result, at once. */
  lemma {:induction false} ReplaceIdPointwise(xs: seq<Expense>, id: ExpenseId, v: Expense)
    ensures forall k :: 0 <= k < |xs| ==> ReplaceId(xs, id, v)[k] == if xs[k].id == id then v else xs[k]
  {
    forall k | 0 <= k < |xs| ensures ReplaceId(xs, id, v)[k] == if xs[k].id == id then v else xs[k] {
      ReplaceIdAt(xs, id, v, k);
    }
  }

  /**
   * What the update handler stores at a matching position: the clicked record
   * with the four new fields; its id, and so the ids of the list, are unchanged.
   */
  lemma UpdateOverlayAt(xs: seq<Expense>, clicked: Expense, f: Fields, k: nat)
    requires k < |xs|
    ensures xs[k].id == clicked.id ==>
      ReplaceId(xs, clicked.id, Overlay(clicked, f))[k]
        == xs[k].(title := f.title, amount := f.amount, category := f.category, date := f.date)
    ensures xs[k].id != clicked.id ==> ReplaceId(xs, clicked.id, Overlay(clicked, f))[k] == xs[k]
  {
    ReplaceIdAt(xs, clicked.id, Overlay(clicked, f), k);
  }

  /** An update whose replacement keeps the id leaves the list's ids as they were. */
  lemma {:induction false} UpdateKeepsIds(xs: seq<Expense>, id: ExpenseId, v: Expense)
    requires v.id == id
    ensures Ids(ReplaceId(xs, id, v)) == Ids(xs)
  {
    ReplaceIdPointwise(xs, id, v);
  }

  /** Updating an id that no record carries changes nothing. */
  lemma {:induction false} ReplaceIdAbsent(xs: seq<Expense>, id: ExpenseId, v: Expense)
    requires Absent(xs, id)
    ensures ReplaceId(xs, id, v) == xs
  {
    ReplaceIdPointwise(xs, id, v);
    forall k | 0 <= k < |xs| ensures xs[k].id != id {
      assert xs[k] in xs;
    }
  }

  /** Repeating the same update is the same as doing it once. */
  lemma {:induction false} ReplaceIdIdempotent(xs: seq<Expense>, id: ExpenseId, v: Expense)
    requires v.id == id
    ensures ReplaceId(ReplaceId(xs, id, v), id, v) == ReplaceId(xs, id, v)
  {
    var r := ReplaceId(xs, id, v);
    ReplaceIdPointwise(xs, id, v);
    ReplaceIdPointwise(r, id, v);
  }

  /**
   * With unique ids, updating the record at `k` by its own id changes that one
   * position and nothing else.
   */
  lemma ReplaceIdUnique(xs: seq<Expense>, k: nat, v: Expense)
    requires UniqueIds(xs)
    requires k < |xs|
    ensures ReplaceId(xs, xs[k].id, v) == xs[k := v]
  {
    ReplaceIdPointwise(xs, xs[k].id, v);
  }

  /** Updating with a replacement that keeps the id keeps ids unique. */
  lemma ReplaceIdKeepsUnique(xs: seq<Expense>, id: ExpenseId, v: Expense)
    requires UniqueIds(xs)
    requires v.id == id
    ensures UniqueIds(ReplaceId(xs, id, v))
  {
    ReplaceIdPointwise(xs, id, v);
  }
}
