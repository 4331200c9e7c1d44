/**
 * What the admin list pages share: removing a record by id from the local list
 * after a delete, choosing between an update and an insert on save, the
 * display-order field's parser, and the messages every page uses.
 */
module AdminCommon {
  import opened Wrappers
  import opened JsText
  import opened SeqOps
  import opened Store

  const DeleteFailed := "Error al eliminar"

  /** `list.filter(x => x.id !== id)`. */
  function RemoveById<T(==,!new)>(xs: seq<T>, id: string, key: T -> string): (r: seq<T>)
    ensures forall x :: x in r <==> x in xs && key(x) != id
    ensures IsSubsequence(r, xs)
    ensures forall x :: multiset(r)[x] == if key(x) != id then multiset(xs)[x] else 0
  {
    var keep := (x: T) => key(x) != id;
    FilterIsSubsequence(xs, keep);
    FilterMultiplicity(xs, keep);
    Filter(xs, keep)
  }

  /** Removing an id no record carries leaves the list as it was. */
  lemma RemoveAbsentId<T(!new)>(xs: seq<T>, id: string, key: T -> string)
    requires forall i :: 0 <= i < |xs| ==> key(xs[i]) != id
    ensures RemoveById(xs, id, key) == xs
  {
    FilterAll(xs, (x: T) => key(x) != id);
  }

  /** A filter that fails on exactly one position drops exactly that element. */
  lemma {:induction false} FilterDropsOne<T(!new)>(xs: seq<T>, k: nat, keep: T -> bool)
    requires k < |xs| && !keep(xs[k])
    requires forall i :: 0 <= i < |xs| && i != k ==> keep(xs[i])
    ensures Filter(xs, keep) == xs[..k] + xs[k + 1..]
    decreases k
  {
    var t := xs[1..];
    if k == 0 {
      assert forall i :: 0 <= i < |t| ==> keep(t[i]) by {
        forall i | 0 <= i < |t| ensures keep(t[i]) {
          assert t[i] == xs[i + 1];
        }
      }
      FilterAll(t, keep);
    } else {
      assert forall i :: 0 <= i < |t| && i != k - 1 ==> keep(t[i]) by {
        forall i | 0 <= i < |t| && i != k - 1 ensures keep(t[i]) {
          assert t[i] == xs[i + 1];
        }
      }
      FilterDropsOne(t, k - 1, keep);
      assert keep(xs[0]);
      assert [xs[0]] + (t[..k - 1] + t[k..]) == xs[..k] + xs[k + 1..];
    }
  }

  /** Removing one record from a list whose ids are distinct takes out exactly
      that record. */
  lemma RemoveUniqueId<T(!new)>(xs: seq<T>, k: nat, key: T -> string)
    requires k < |xs|
    requires forall i, j :: 0 <= i < j < |xs| ==> key(xs[i]) != key(xs[j])
    ensures RemoveById(xs, key(xs[k]), key) == xs[..k] + xs[k + 1..]
  {
    var id := key(xs[k]);
    var keep := (x: T) => key(x) != id;
    assert forall i :: 0 <= i < |xs| && i != k ==> keep(xs[i]) by {
      forall i | 0 <= i < |xs| && i != k ensures keep(xs[i]) {
        if i < k {
          assert key(xs[i]) != key(xs[k]);
        } else {
          assert key(xs[k]) != key(xs[i]);
        }
      }
    }
    FilterDropsOne(xs, k, keep);
  }

  /** The write a save issues: an update of the edited record's id, or an
      insert when no record is being edited. */
  function SaveCall<R, F>(editing: Option<R>, key: R -> string, row: F): (c: Call<F>)
    ensures editing.Some? ==> c == Update(key(editing.value), row)
    ensures editing.None? ==> c == Insert(row)
  {
    if editing.Some? then Update(key(editing.value), row) else Insert(row)
  }

  /** The requests a save sends once its fields pass the page's check: the
      write, then a refetch only if the write succeeded. */
  function SaveRequests<R, F>(editing: Option<R>, key: R -> string, row: F, answer: Outcome): (rs: seq<Call<F>>)
    ensures |rs| >= 1 && rs[0] == SaveCall(editing, key, row)
    ensures answer.Ok? <==> |rs| == 2
    ensures |rs| == 2 ==> rs[1] == Select
  {
    [SaveCall(editing, key, row)] + if answer.Ok? then [Select] else []
  }

  /** The order input: `parseInt(value) || 0`. */
  function OrderField(text: string): int {
    ParseIntOrZero(text)
  }

  /** The order input reads the leading integer of what was typed: `"3"` is 3,
      `"2.7"` is 2 and an empty input is 0. */
  lemma OrderFieldExamples()
    ensures OrderField("3") == 3
    ensures OrderField("2.7") == 2
    ensures OrderField("") == 0
  {
    ParseIntOfNat(3, "");
    assert DecimalString(3) == [DigitChar(3)] == "3";
    assert DecimalString(3) + "" == "3";
    ParseIntOfNat(2, ".7");
    assert DecimalString(2) == [DigitChar(2)] == "2";
    assert DecimalString(2) + ".7" == "2.7";
  }

  /** Whatever integer is typed, possibly with a fraction after it, is read
      back. */
  lemma OrderFieldReadsInteger(i: int, rest: string)
    requires rest == [] || !IsDigit(rest[0])
    requires i == 0 ==> rest == [] || (rest[0] != 'x' && rest[0] != 'X')
    ensures OrderField(IntString(i) + rest) == i
  {
    ParseIntOfIntString(i, rest);
  }

  /** Text that does not start a number, after any leading blanks, reads as 0. */
  lemma OrderFieldOfNonNumber(text: string)
    requires text == [] || (!IsSpace(text[0]) && !IsDigit(text[0]) && text[0] != '-' && text[0] != '+')
    ensures OrderField(text) == 0
  {
    if text != [] {
      TrimStartNoSpace(text);
    }
  }
}
