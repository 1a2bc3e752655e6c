/** `cn`: joins CSS class names with single spaces, dropping empty ones. */
module Utils {
  import opened Common
  import opened Text

  predicate NonEmpty(s: string) { s != "" }

  /** `classes.filter(Boolean).join(' ')`. */
  function Cn(classes: seq<string>): (r: string)
    ensures r == "" <==> forall i :: 0 <= i < |classes| ==> classes[i] == ""
  {
    KeptJoinEmpty(classes);
    Join(Filter(classes, NonEmpty), " ")
  }

  /** The join of the kept names is empty exactly when every name is. */
  lemma KeptJoinEmpty(classes: seq<string>)
    ensures Join(Filter(classes, NonEmpty), " ") == "" <==> forall i :: 0 <= i < |classes| ==> classes[i] == ""
  {
    var kept := Filter(classes, NonEmpty);
    if forall i :: 0 <= i < |classes| ==> classes[i] == "" {
      FilterNone(classes, NonEmpty);
    } else {
      var i :| 0 <= i < |classes| && classes[i] != "";
      assert classes[i] in kept;
      assert NonEmpty(kept[0]);
    }
  }

  /** Total length of the pieces. */
  function TotalLength(parts: seq<string>): nat
    decreases |parts|
  {
    if |parts| == 0 then 0 else |parts[0]| + TotalLength(parts[1..])
  }

  /** Joining two non-empty lists puts one separator between their joins. */
  lemma {:induction false} JoinAppend(a: seq<string>, b: seq<string>, sep: string)
    requires |a| >= 1 && |b| >= 1
    ensures Join(a + b, sep) == Join(a, sep) + sep + Join(b, sep)
    decreases |a|
  {
    if |a| == 1 {
      assert (a + b)[1..] == b;
    } else {
      assert (a + b)[1..] == a[1..] + b;
      JoinAppend(a[1..], b, sep);
    }
  }

  /** A join of k pieces is as long as the pieces plus k - 1 separators. */
  lemma {:induction false} JoinLength(parts: seq<string>, sep: string)
    requires |parts| >= 1
    ensures |Join(parts, sep)| == TotalLength(parts) + (|parts| - 1) * |sep|
    decreases |parts|
  {
    if |parts| > 1 {
      JoinLength(parts[1..], sep);
    }
  }

  /** With k non-empty names the result is the names plus exactly k - 1
      single-space separators. */
  lemma CnLength(classes: seq<string>)
    requires |Filter(classes, NonEmpty)| >= 1
    ensures |Cn(classes)| == TotalLength(Filter(classes, NonEmpty)) + Count(classes, NonEmpty) - 1
  {
    JoinLength(Filter(classes, NonEmpty), " ");
  }

  /** No names, or only empty ones, give the empty string. */
  lemma {:induction false} CnOfEmpties(classes: seq<string>)
    requires forall i :: 0 <= i < |classes| ==> classes[i] == ""
    ensures Cn(classes) == ""
  {
    FilterNone(classes, NonEmpty);
  }

  /** Empty names are dropped wherever they stand. */
  lemma CnSkipsEmpty(a: seq<string>, b: seq<string>)
    ensures Cn(a + [""] + b) == Cn(a + b)
  {
    FilterAppend(a + [""], b, NonEmpty);
    FilterAppend(a, [""], NonEmpty);
    FilterAppend(a, b, NonEmpty);
    assert [""][1..] == [];
    assert Filter([""], NonEmpty) == [];
    assert Filter(a + [""], NonEmpty) == Filter(a, NonEmpty);
  }

  /** Order is kept: the names of a later group follow those of an earlier
      one, separated by one space. */
  lemma CnAppend(a: seq<string>, b: seq<string>)
    requires |Filter(a, NonEmpty)| >= 1 && |Filter(b, NonEmpty)| >= 1
    ensures Cn(a + b) == Cn(a) + " " + Cn(b)
  {
    FilterAppend(a, b, NonEmpty);
    JoinAppend(Filter(a, NonEmpty), Filter(b, NonEmpty), " ");
  }

  /** A single non-empty name comes back unchanged. */
  lemma CnSingle(c: string)
    requires c != ""
    ensures Cn([c]) == c
  {
    assert Filter([c], NonEmpty) == [c];
  }
}
