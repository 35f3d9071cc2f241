/**
 * The work-in-progress title test used by both pull-request WIP checks
 * (app.py lines 79 and 88): the title is lower-cased and searched for any of
 * three markers.
 */
module Wip {

  import opened Text

  /** The markers, in the order the source tests them; kept in step with the three literals of IsWip. */
  const MARKERS: seq<string> := ["wip", "work in progress", "do not merge"]

  /** `"wip" in t.lower() or "work in progress" in t.lower() or "do not merge" in t.lower()` */
  predicate IsWip(title: string) {
    Contains(Lower(title), "wip")
    || Contains(Lower(title), "work in progress")
    || Contains(Lower(title), "do not merge")
  }

  /** Marker `m` occurs in `title` at index `k` when letter case is ignored. */
  predicate OccursIgnoringCase(title: string, m: string, k: int) {
    0 <= k && k + |m| <= |title| && Lower(title[k..k + |m|]) == m
  }

  /** A title is WIP exactly when some marker occurs somewhere in it, ignoring case. */
  lemma {:induction false} IsWipIff(title: string)
    ensures IsWip(title) <==> exists m, k :: m in MARKERS && OccursIgnoringCase(title, m, k)
  {
    forall m, k | 0 <= k && k + |m| <= |title|
      ensures OccursAt(Lower(title), m, k) <==> OccursIgnoringCase(title, m, k)
    {
      LowerSlice(title, k, k + |m|);
    }
    ContainsIff(Lower(title), "wip");
    ContainsIff(Lower(title), "work in progress");
    ContainsIff(Lower(title), "do not merge");
    if IsWip(title) {
      var m := if Contains(Lower(title), "wip") then "wip"
               else if Contains(Lower(title), "work in progress") then "work in progress"
               else "do not merge";
      assert m in MARKERS;
      var k :| OccursAt(Lower(title), m, k);
      assert OccursIgnoringCase(title, m, k);
    }
  }

  /** The test ignores ASCII case: upper- or lower-casing a title does not change the verdict. */
  lemma {:induction false} IsWipIgnoresCase(title: string)
    ensures IsWip(Upper(title)) == IsWip(title)
    ensures IsWip(Lower(title)) == IsWip(title)
  {
    LowerOfUpper(title);
    LowerIdempotent(title);
  }

  /** Adding words before or after a WIP title never clears the mark. */
  lemma {:induction false} IsWipExtend(a: string, title: string, b: string)
    requires IsWip(title)
    ensures IsWip(a + title + b)
  {
    LowerConcat(a + title, b);
    LowerConcat(a, title);
    assert Lower(a + title + b) == Lower(a) + Lower(title) + Lower(b);
    forall m | Contains(Lower(title), m)
      ensures Contains(Lower(a + title + b), m)
    {
      ContainsExtend(Lower(a), Lower(title), Lower(b), m);
    }
  }

  lemma {:induction false} FixWipBugIsWip(title: string)
    requires title == "Fix WIP bug"
    ensures IsWip(title)
  {
    assert title == "Fix " + "WIP" + " bug";
    LowerConcat("Fix " + "WIP", " bug");
    LowerConcat("Fix ", "WIP");
    assert Lower("WIP") == "wip";
    ContainsInfix(Lower("Fix "), "wip", Lower(" bug"));
  }

  /**
   * A title shorter than "do not merge", with no upper-case letter and no 'w',
   * holds none of the markers: "wip" and "work in progress" start with 'w'.
   */
  lemma {:induction false} ShortTitleWithoutWIsNotWip(title: string)
    requires forall i :: 0 <= i < |title| ==> !('A' <= title[i] <= 'Z') && title[i] != 'w'
    requires |title| < |"do not merge"|
    ensures !IsWip(title)
  {
    LowerWithoutUpper(title);
    if Contains(title, "wip") {
      ContainsFirst(title, "wip");
    }
  }

  lemma {:induction false} ReadyIsNotWip(title: string)
    requires title == "ready"
    ensures !IsWip(title)
  {
    ShortTitleWithoutWIsNotWip(title);
  }

  /** Every title that starts with "WIP" (in any case, here upper) is WIP, such as "WIP: add feature". */
  lemma {:induction false} WipPrefixIsWip(rest: string)
    ensures IsWip("WIP" + rest)
  {
    LowerConcat("WIP", rest);
    assert Lower("WIP") == "wip";
    ContainsInfix([], "wip", Lower(rest));
    assert [] + "wip" + Lower(rest) == "wip" + Lower(rest);
  }
}
