/**
 * The string operations the query layer applies to names: `str.lower`,
 * `str.title` and `_napi` (c7n/query.py), which turns a snake_case API
 * operation name into the CamelCase name used in IAM permissions.
 * Case mapping is ASCII only.
 */
module Text {
  import opened Seqs

  predicate IsUpper(c: char) { 'A' <= c <= 'Z' }
  predicate IsLower(c: char) { 'a' <= c <= 'z' }
  predicate IsLetter(c: char) { IsUpper(c) || IsLower(c) }

  function ToLower(c: char): (d: char)
    ensures !IsUpper(d)
    ensures IsLetter(c) <==> IsLetter(d)
    ensures !IsLetter(c) ==> d == c
  {
    if IsUpper(c) then (c as int + 32) as char else c
  }

  function ToUpper(c: char): (d: char)
    ensures !IsLower(d)
    ensures IsLetter(c) <==> IsLetter(d)
    ensures !IsLetter(c) ==> d == c
  {
    if IsLower(c) then (c as int - 32) as char else c
  }

  /** `s.lower()` */
  function Lower(s: string): (r: string)
    ensures |r| == |s|
    ensures forall i | 0 <= i < |s| :: r[i] == ToLower(s[i])
  {
    seq(|s|, i requires 0 <= i < |s| => ToLower(s[i]))
  }

  /** Lowering twice is lowering once, and a name already in lower case is unchanged. */
  lemma LowerIdempotent(s: string)
    ensures Lower(Lower(s)) == Lower(s)
    ensures (forall i | 0 <= i < |s| :: !IsUpper(s[i])) ==> Lower(s) == s
  {
  }

  /**
   * `s.title()` continuing after a character that was (`afterLetter`) or
   * was not a letter: a letter is upper-cased at the start of a word and
   * lower-cased inside one; anything else is kept and ends the word.
   */
  function TitleFrom(s: string, afterLetter: bool): (r: string)
    ensures |r| == |s|
  {
    if s == [] then []
    else
      var c := if !IsLetter(s[0]) then s[0] else if afterLetter then ToLower(s[0]) else ToUpper(s[0]);
      [c] + TitleFrom(s[1..], IsLetter(s[0]))
  }

  /** `s.title()` */
  function Title(s: string): (r: string)
    ensures |r| == |s|
  {
    TitleFrom(s, false)
  }

  /** Whether the last character of `s` (or, for an empty `s`, the one before it) is a letter. */
  function EndsInLetter(s: string, afterLetter: bool): bool
  {
    if s == [] then afterLetter else IsLetter(s[|s| - 1])
  }

  lemma {:induction false} TitleConcat(a: string, b: string, afterLetter: bool)
    ensures TitleFrom(a + b, afterLetter) == TitleFrom(a, afterLetter) + TitleFrom(b, EndsInLetter(a, afterLetter))
  {
    if a == [] {
      assert a + b == b;
    } else {
      assert (a + b)[1..] == a[1..] + b;
      TitleConcat(a[1..], b, IsLetter(a[0]));
      if a[1..] != [] {
        assert a[1..][|a[1..]| - 1] == a[|a| - 1];
      }
    }
  }

  /** `_napi(op_name)`: `op_name.title().replace('_', '')`. */
  function Napi(opName: string): (r: string)
    ensures '_' !in r
    ensures |r| <= |opName|
  {
    var keep := (c: char) => c != '_';
    Filter(Title(opName), keep)
  }

  /**
   * Each underscore-separated word is capitalised on its own and the
   * underscores disappear: `Napi(a + "_" + b) == Napi(a) + Napi(b)`.
   */
  lemma NapiSplit(a: string, b: string)
    ensures Napi(a + "_" + b) == Napi(a) + Napi(b)
  {
    var keep := (c: char) => c != '_';
    var ta, tb := Title(a), Title(b);
    TitleConcat(a, "_", false);
    var u := TitleFrom("_", EndsInLetter(a, false));
    assert u == "_";
    assert Title(a + "_") == ta + "_";
    TitleConcat(a + "_", b, false);
    assert Title(a + "_" + b) == (ta + "_") + tb;
    FilterConcat(ta + "_", tb, keep);
    FilterConcat(ta, "_", keep);
    assert Filter("_", keep) == [];
    assert Filter(ta + "_", keep) == Filter(ta, keep);
  }

  /** A single lower-case word gets its first letter capitalised and nothing else changes. */
  lemma NapiWord(w: string)
    requires w != [] && forall i | 0 <= i < |w| :: IsLower(w[i])
    ensures Napi(w) == [ToUpper(w[0])] + w[1..]
  {
    var keep := (c: char) => c != '_';
    LowerWordTitle(w[1..]);
    FilterAll(Title(w), keep);
  }

  /** Inside a word, lower-case letters stay as they are. */
  lemma {:induction false} LowerWordTitle(w: string)
    requires forall i | 0 <= i < |w| :: IsLower(w[i])
    ensures TitleFrom(w, true) == w
  {
    if w != [] {
      LowerWordTitle(w[1..]);
    }
  }
}
