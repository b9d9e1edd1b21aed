/**
 * Tag normalisation (`normalizeTags` in
 * apps/api/src/services/services.service.ts): trim every tag, drop the
 * empty ones, and keep the first occurrence of each value.
 */
module Tags {
  import opened Wrappers
  import opened Seqs

  /**
   * The characters JavaScript's `String.prototype.trim` removes: the
   * ECMAScript WhiteSpace set (tab, vertical tab, form feed, space,
   * no-break space, byte order mark and the Unicode space separators) and
   * the LineTerminator set.
   */
  predicate IsTrimmable(c: char) {
    || c == '\t' || c == '\n' || c == '\U{000B}' || c == '\U{000C}' || c == '\r'
    || c == ' ' || c == '\U{00A0}' || c == '\U{1680}'
    || ('\U{2000}' <= c <= '\U{200A}')
    || c == '\U{2028}' || c == '\U{2029}' || c == '\U{202F}' || c == '\U{205F}'
    || c == '\U{3000}' || c == '\U{FEFF}'
  }

  predicate AllTrimmable(s: string) {
    forall i :: 0 <= i < |s| ==> IsTrimmable(s[i])
  }

  /** Neither end of `s` is trimmable. */
  predicate IsTrimmed(s: string) {
    s == "" || (!IsTrimmable(s[0]) && !IsTrimmable(s[|s| - 1]))
  }

  function TrimStart(s: string): string {
    if s != [] && IsTrimmable(s[0]) then TrimStart(s[1..]) else s
  }

  function TrimEnd(s: string): string {
    if s != [] && IsTrimmable(s[|s| - 1]) then TrimEnd(s[..|s| - 1]) else s
  }

  /** `tag.trim()`. */
  function Trim(s: string): string {
    TrimEnd(TrimStart(s))
  }

  lemma {:induction false} TrimStartSlice(s: string)
    ensures |TrimStart(s)| <= |s| && TrimStart(s) == s[|s| - |TrimStart(s)|..]
    ensures AllTrimmable(s[..|s| - |TrimStart(s)|])
    ensures TrimStart(s) == "" || !IsTrimmable(TrimStart(s)[0])
  {
    if s != [] && IsTrimmable(s[0]) {
      TrimStartSlice(s[1..]);
      var k := |s| - |TrimStart(s)|;
      assert s[..k] == [s[0]] + s[1..][..k - 1];
    }
  }

  lemma {:induction false} TrimEndSlice(s: string)
    ensures |TrimEnd(s)| <= |s| && TrimEnd(s) == s[..|TrimEnd(s)|]
    ensures AllTrimmable(s[|TrimEnd(s)|..])
    ensures TrimEnd(s) == "" || !IsTrimmable(TrimEnd(s)[|TrimEnd(s)| - 1])
  {
    if s != [] && IsTrimmable(s[|s| - 1]) {
      var init := s[..|s| - 1];
      TrimEndSlice(init);
      var k := |TrimEnd(s)|;
      assert s[k..] == init[k..] + [s[|s| - 1]];
    }
  }

  /**
   * The trim of `s` is the slice of `s` left after removing trimmable
   * characters from both ends, and it is itself trimmed.
   */
  lemma TrimSlice(s: string)
    ensures IsTrimmed(Trim(s))
    ensures exists i, j :: 0 <= i <= j <= |s| && Trim(s) == s[i..j]
                        && AllTrimmable(s[..i]) && AllTrimmable(s[j..])
  {
    TrimStartSlice(s);
    var t := TrimStart(s);
    TrimEndSlice(t);
    var i := |s| - |t|;
    var j := i + |Trim(s)|;
    assert Trim(s) == s[i..j];
    assert s[j..] == t[|Trim(s)|..];
    if Trim(s) != "" {
      assert !IsTrimmable(t[0]);
      assert Trim(s)[0] == t[0];
    }
  }

  lemma TrimmedIsFixed(s: string)
    requires IsTrimmed(s)
    ensures Trim(s) == s
  {
    assert TrimStart(s) == s;
  }

  /** Trimming twice is trimming once. */
  lemma TrimIdempotent(s: string)
    ensures Trim(Trim(s)) == Trim(s)
  {
    TrimSlice(s);
    TrimmedIsFixed(Trim(s));
  }

  /** `tags.map((tag) => tag.trim()).filter(Boolean)`. */
  function Cleaned(tags: seq<string>): (r: seq<string>)
    ensures |r| <= |tags|
  {
    if tags == [] then []
    else (if Trim(tags[0]) == "" then [] else [Trim(tags[0])]) + Cleaned(tags[1..])
  }

  /** `Array.from(new Set(xs))`: the first occurrence of each value, in order. */
  function Dedupe<T(==)>(xs: seq<T>): (r: seq<T>)
    ensures |r| <= |xs|
  {
    if xs == [] then []
    else
      var r := Dedupe(xs[..|xs| - 1]);
      if xs[|xs| - 1] in r then r else r + [xs[|xs| - 1]]
  }

  /** `normalizeTags(tags)`; `None` is an omitted `tags` field. */
  function NormalizeTags(tags: Option<seq<string>>): seq<string> {
    if tags.None? then [] else Dedupe(Cleaned(tags.value))
  }

  lemma {:induction false} CleanedMembers(tags: seq<string>)
    ensures forall t :: t in Cleaned(tags) <==> t != "" && exists u :: u in tags && Trim(u) == t
  {
    if tags != [] {
      CleanedMembers(tags[1..]);
      assert tags == [tags[0]] + tags[1..];
    }
  }

  lemma {:induction false} DedupeMembers<T>(xs: seq<T>)
    ensures forall x :: x in Dedupe(xs) <==> x in xs
    ensures forall i :: 0 <= i < |Dedupe(xs)| ==> Dedupe(xs)[i] in xs
    ensures Distinct(Dedupe(xs))
  {
    if xs != [] {
      DedupeMembers(xs[..|xs| - 1]);
      assert xs == xs[..|xs| - 1] + [xs[|xs| - 1]];
    }
  }

  /** The values of `d` occur in `xs`, and appear in `d` in the order of their first occurrence there. */
  predicate FirstOccurrenceOrder<T(==)>(d: seq<T>, xs: seq<T>) {
    forall i, j :: 0 <= i < j < |d| ==> d[i] in xs && d[j] in xs && IndexOf(xs, d[i]) < IndexOf(xs, d[j])
  }

  /** `Dedupe` keeps values in the order of their first occurrence. */
  lemma {:induction false} DedupeFirstOccurrence<T>(xs: seq<T>)
    ensures FirstOccurrenceOrder(Dedupe(xs), xs)
  {
    if xs != [] {
      var init := xs[..|xs| - 1];
      var x := xs[|xs| - 1];
      assert xs == init + [x];
      DedupeFirstOccurrence(init);
      DedupeSnocFirstOccurrence(init, x);
    } else {
      assert Dedupe(xs) == [];
    }
  }

  lemma DedupeSnocFirstOccurrence<T>(init: seq<T>, x: T)
    requires FirstOccurrenceOrder(Dedupe(init), init)
    ensures FirstOccurrenceOrder(Dedupe(init + [x]), init + [x])
  {
    assert (init + [x])[..|init + [x]| - 1] == init;
    DedupeMembers(init);
    var r := Dedupe(init);
    FirstOccurrenceExtend(r, init, x);
    if x !in r {
      FirstOccurrenceSnoc(r, init, x);
    }
  }

  /** Appending to `xs` keeps the first occurrences of its values where they were. */
  lemma FirstOccurrenceExtend<T>(r: seq<T>, init: seq<T>, x: T)
    requires FirstOccurrenceOrder(r, init)
    requires forall i :: 0 <= i < |r| ==> r[i] in init
    ensures FirstOccurrenceOrder(r, init + [x])
  {
    forall i, j | 0 <= i < j < |r|
      ensures r[i] in init + [x] && r[j] in init + [x]
        && IndexOf(init + [x], r[i]) < IndexOf(init + [x], r[j])
    {
      IndexOfAppend(init, [x], r[i]);
      IndexOfAppend(init, [x], r[j]);
    }
  }

  /** A value first seen at the end of `xs` may follow all the others. */
  lemma FirstOccurrenceSnoc<T>(r: seq<T>, init: seq<T>, x: T)
    requires FirstOccurrenceOrder(r, init + [x])
    requires forall i :: 0 <= i < |r| ==> r[i] in init
    requires x !in init
    ensures FirstOccurrenceOrder(r + [x], init + [x])
  {
    var xs := init + [x];
    var d := r + [x];
    assert IndexOf(xs, x) == |init| by {
      assert xs[|init|] == x;
    }
    forall i, j | 0 <= i < j < |d|
      ensures d[i] in xs && d[j] in xs && IndexOf(xs, d[i]) < IndexOf(xs, d[j])
    {
      if j < |r| {
        assert d[i] == r[i] && d[j] == r[j];
      } else {
        assert d[j] == x && d[i] == r[i];
        IndexOfAppend(init, [x], r[i]);
      }
    }
  }

  lemma {:induction false} DedupeOfDistinct<T>(xs: seq<T>)
    requires Distinct(xs)
    ensures Dedupe(xs) == xs
  {
    if xs != [] {
      var init := xs[..|xs| - 1];
      DedupeOfDistinct(init);
      assert xs[|xs| - 1] !in init;
      assert xs == init + [xs[|xs| - 1]];
    }
  }

  lemma {:induction false} CleanedOfClean(xs: seq<string>)
    requires forall i :: 0 <= i < |xs| ==> xs[i] != "" && IsTrimmed(xs[i])
    ensures Cleaned(xs) == xs
  {
    if xs != [] {
      TrimmedIsFixed(xs[0]);
      var rest := xs[1..];
      assert forall i :: 0 <= i < |rest| ==> rest[i] == xs[i + 1];
      CleanedOfClean(rest);
      assert Cleaned(xs) == [xs[0]] + Cleaned(rest);
      assert xs == [xs[0]] + rest;
    }
  }

  /**
   * Every normalised tag is non-empty, is already trimmed and is the trim
   * of some input tag; every input tag whose trim is non-empty is kept; no
   * tag occurs twice; and the tags keep the order of their first occurrence
   * in the trimmed list.  An omitted `tags` field normalises to `[]`.
   */
  lemma NormalizeTagsSpec(tags: Option<seq<string>>)
    ensures tags.None? ==> NormalizeTags(tags) == []
    ensures forall t :: t in NormalizeTags(tags) ==>
      t != "" && IsTrimmed(t) && exists u :: u in tags.value && Trim(u) == t
    ensures tags.Some? ==> forall u :: u in tags.value && Trim(u) != "" ==> Trim(u) in NormalizeTags(tags)
    ensures Distinct(NormalizeTags(tags))
    ensures tags.Some? ==> forall i, j :: 0 <= i < j < |NormalizeTags(tags)| ==>
      var c := Cleaned(tags.value);
      NormalizeTags(tags)[i] in c && NormalizeTags(tags)[j] in c &&
      IndexOf(c, NormalizeTags(tags)[i]) < IndexOf(c, NormalizeTags(tags)[j])
  {
    if tags.Some? {
      CleanedMembers(tags.value);
      DedupeMembers(Cleaned(tags.value));
      DedupeFirstOccurrence(Cleaned(tags.value));
      forall t | t in NormalizeTags(tags) ensures IsTrimmed(t) {
        var u :| u in tags.value && Trim(u) == t;
        TrimSlice(u);
      }
    }
  }

  /** Normalising an already normalised list changes nothing. */
  lemma NormalizeTagsIdempotent(tags: Option<seq<string>>)
    ensures NormalizeTags(Some(NormalizeTags(tags))) == NormalizeTags(tags)
  {
    var r := NormalizeTags(tags);
    NormalizeTagsSpec(tags);
    assert forall i :: 0 <= i < |r| ==> r[i] in r;
    CleanedOfClean(r);
    DedupeOfDistinct(r);
  }

  lemma TrimExamples()
    ensures Trim(" a ") == "a" && Trim(" b ") == "b"
    ensures Trim("a") == "a" && Trim("b") == "b"
  {
    assert TrimStart(" a ") == "a ";
    assert TrimEnd("a ") == "a";
    assert TrimStart(" b ") == "b ";
    assert TrimEnd("b ") == "b";
    TrimmedIsFixed("a");
    TrimmedIsFixed("b");
  }

  /** `["a", " a ", "b", "b"]` normalises to `["a", "b"]`. */
  lemma NormalizeTagsExample()
    ensures NormalizeTags(Some(["a", " a ", "b", "b"])) == ["a", "b"]
  {
    TrimExamples();
    var c := ["a", "a", "b", "b"];
    assert Cleaned(["a", " a ", "b", "b"]) == c;
    assert c[..3] == ["a", "a", "b"];
    assert ["a", "a", "b"][..2] == ["a", "a"];
    assert ["a", "a"][..1] == ["a"];
  }

  /** The end-to-end test's tags `["catalog", "test"]` are stored unchanged. */
  lemma NormalizeTagsCleanInput()
    ensures NormalizeTags(Some(["catalog", "test"])) == ["catalog", "test"]
  {
    var xs := ["catalog", "test"];
    TrimmedIsFixed("catalog");
    TrimmedIsFixed("test");
    CleanedOfClean(xs);
    assert Distinct(xs);
    DedupeOfDistinct(xs);
  }
}
