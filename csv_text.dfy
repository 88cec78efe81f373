/**
 * Counting the fields of a CSV line: a comma separates two fields unless it
 * stands inside a double-quoted field. A line with `k` separating commas has
 * `k + 1` fields.
 */
module CsvText {
  import opened PyText

  /** The separating commas of `s`, read from a point inside quotes (`quoted`) or not. */
  function SeparatorsFrom(s: string, quoted: bool): nat
  {
    if s == [] then 0
    else if s[0] == '"' then SeparatorsFrom(s[1..], !quoted)
    else (if s[0] == ',' && !quoted then 1 else 0) + SeparatorsFrom(s[1..], quoted)
  }

  /** Whether the end of `s` is inside quotes, reading from a point inside quotes (`quoted`) or not. */
  function QuotedAfter(s: string, quoted: bool): bool
  {
    if s == [] then quoted else QuotedAfter(s[1..], if s[0] == '"' then !quoted else quoted)
  }

  /** The separating commas of a line. */
  function Separators(s: string): nat
  {
    SeparatorsFrom(s, false)
  }

  /** Every quote `s` opens it also closes. */
  predicate Balanced(s: string)
  {
    !QuotedAfter(s, false)
  }

  /** Reading `a + b` is reading `a`, then `b` from where `a` left off. */
  lemma {:induction false} SeparatorsFromAppend(a: string, b: string, quoted: bool)
    ensures SeparatorsFrom(a + b, quoted) == SeparatorsFrom(a, quoted) + SeparatorsFrom(b, QuotedAfter(a, quoted))
    ensures QuotedAfter(a + b, quoted) == QuotedAfter(b, QuotedAfter(a, quoted))
  {
    if a == [] {
      assert a + b == b;
    } else {
      assert (a + b)[1..] == a[1..] + b;
      SeparatorsFromAppend(a[1..], b, if a[0] == '"' then !quoted else quoted);
    }
  }

  /** `commas` commas and no quote: wherever it stands, a run of `commas + 1` unquoted fields. */
  predicate Plain(s: string, commas: nat)
  {
    Occurrences(s, ',') == commas && '"' !in s
  }

  /** Two plain runs put together are one, their commas adding up. */
  lemma PlainConcat(a: string, b: string, i: nat, j: nat)
    requires Plain(a, i) && Plain(b, j)
    ensures Plain(a + b, i + j)
  {
    assert multiset(a + b) == multiset(a) + multiset(b);
  }

  /** After a balanced line, the separators of what follows add up. */
  lemma SeparatorsAppend(a: string, b: string)
    requires Balanced(a)
    ensures Separators(a + b) == Separators(a) + Separators(b)
    ensures Balanced(a + b) == Balanced(b)
  {
    SeparatorsFromAppend(a, b, false);
  }

  /** Without quotes every comma separates, and the quoting state does not change. */
  lemma {:induction false} UnquotedSeparators(s: string, quoted: bool)
    requires '"' !in s
    ensures SeparatorsFrom(s, quoted) == if quoted then 0 else Occurrences(s, ',')
    ensures QuotedAfter(s, quoted) == quoted
  {
    if s != [] {
      assert s == [s[0]] + s[1..];
      assert multiset(s) == multiset([s[0]]) + multiset(s[1..]);
      UnquotedSeparators(s[1..], quoted);
    }
  }

  /** A line without quotes is balanced and each of its commas separates. */
  lemma Unquoted(s: string)
    requires '"' !in s
    ensures Separators(s) == Occurrences(s, ',') && Balanced(s)
  {
    UnquotedSeparators(s, false);
  }

  /** A quoted field followed by `k` commas: `k` separators, balanced. */
  lemma QuotedField(t: string, tail: string)
    requires '"' !in t && '"' !in tail
    ensures Separators("\"" + t + "\"" + tail) == Occurrences(tail, ',')
    ensures Balanced("\"" + t + "\"" + tail)
  {
    var s := "\"" + t + "\"" + tail;
    assert s == "\"" + (t + ("\"" + tail));
    SeparatorsFromAppend("\"", t + ("\"" + tail), false);
    SeparatorsFromAppend(t, "\"" + tail, true);
    UnquotedSeparators(t, true);
    SeparatorsFromAppend("\"", tail, true);
    UnquotedSeparators(tail, false);
  }
}
