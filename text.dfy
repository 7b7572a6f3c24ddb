/**
 * The few JavaScript string operations the application relies on:
 * `String.prototype.split` with a one-character separator,
 * `String.prototype.includes`, and the truthiness of an optional string.
 */
module Text {
  import opened Wrappers

  /** Glues `parts` back together with `sep` between consecutive parts. */
  function Join(parts: seq<string>, sep: char): string
    requires |parts| >= 1
    decreases |parts|
  {
    if |parts| == 1 then parts[0] else parts[0] + [sep] + Join(parts[1..], sep)
  }

  /**
   * `s.split(sep)`: the maximal pieces of `s` between occurrences of `sep`.
   * There is always at least one piece (`"".split(",")` is `[""]`), one more
   * than the number of separators, no piece contains the separator, and
   * joining the pieces gives back `s`.
   */
  function Split(s: string, sep: char): (parts: seq<string>)
    ensures |parts| == multiset(s)[sep] + 1
    ensures forall i :: 0 <= i < |parts| ==> sep !in parts[i]
    ensures Join(parts, sep) == s
    decreases |s|
  {
    if |s| == 0 then [""]
    else
      var rest := Split(s[1..], sep);
      assert s == [s[0]] + s[1..];
      if s[0] == sep then
        SplitAfterSeparator(s[1..], sep, rest);
        [""] + rest
      else
        SplitAfterOther(s[0], s[1..], sep, rest);
        [[s[0]] + rest[0]] + rest[1..]
  }

  /** A leading separator opens a new, empty first piece. */
  lemma SplitAfterSeparator(t: string, sep: char, rest: seq<string>)
    requires |rest| == multiset(t)[sep] + 1
    requires forall i :: 0 <= i < |rest| ==> sep !in rest[i]
    requires Join(rest, sep) == t
    ensures |[""] + rest| == multiset([sep] + t)[sep] + 1
    ensures forall i :: 0 <= i < |[""] + rest| ==> sep !in ([""] + rest)[i]
    ensures Join([""] + rest, sep) == [sep] + t
  {
  }

  /** A leading character other than the separator joins the first piece. */
  lemma SplitAfterOther(c: char, t: string, sep: char, rest: seq<string>)
    requires c != sep
    requires |rest| == multiset(t)[sep] + 1
    requires forall i :: 0 <= i < |rest| ==> sep !in rest[i]
    requires Join(rest, sep) == t
    ensures |[[c] + rest[0]] + rest[1..]| == multiset([c] + t)[sep] + 1
    ensures forall i :: 0 <= i < |[[c] + rest[0]] + rest[1..]| ==> sep !in ([[c] + rest[0]] + rest[1..])[i]
    ensures Join([[c] + rest[0]] + rest[1..], sep) == [c] + t
  {
  }

  /** Prepending a character to the first piece prepends it to the joined text. */
  lemma JoinConsHead(c: char, parts: seq<string>, sep: char)
    requires |parts| >= 1
    ensures Join([[c] + parts[0]] + parts[1..], sep) == [c] + Join(parts, sep)
  {
  }

  /** Splitting a text that has no separator gives the text itself. */
  lemma {:induction false} SplitWithoutSeparator(s: string, sep: char)
    requires sep !in s
    ensures Split(s, sep) == [s]
  {
    assert multiset(s)[sep] == 0;
  }

  /**
   * Split inverts Join: pieces free of the separator are recovered exactly
   * from their joined text.
   */
  lemma {:induction false} SplitJoin(parts: seq<string>, sep: char)
    requires |parts| >= 1
    requires forall i :: 0 <= i < |parts| ==> sep !in parts[i]
    ensures Split(Join(parts, sep), sep) == parts
    decreases |parts|
  {
    if |parts| == 1 {
      SplitWithoutSeparator(parts[0], sep);
    } else {
      SplitJoin(parts[1..], sep);
      SplitSeparatorFree(parts[0], sep, Join(parts[1..], sep));
      assert [parts[0]] + parts[1..] == parts;
    }
  }

  /** Two separator-free pieces joined by the separator split back into those two. */
  lemma SplitTwo(a: string, b: string, sep: char)
    requires sep !in a && sep !in b
    ensures Split(a + [sep] + b, sep) == [a, b]
  {
    SplitSeparatorFree(a, sep, b);
    SplitWithoutSeparator(b, sep);
  }

  /** A separator-free head before the first separator becomes the first piece. */
  lemma {:induction false} SplitSeparatorFree(head: string, sep: char, tail: string)
    requires sep !in head
    ensures Split(head + [sep] + tail, sep) == [head] + Split(tail, sep)
    decreases |head|
  {
    if |head| == 0 {
      assert head + [sep] + tail == [sep] + tail;
      assert ([sep] + tail)[1..] == tail;
    } else {
      var s := head + [sep] + tail;
      assert s[0] == head[0] && s[0] != sep;
      assert s[1..] == head[1..] + [sep] + tail;
      SplitSeparatorFree(head[1..], sep, tail);
      var rest := Split(s[1..], sep);
      assert rest == [head[1..]] + Split(tail, sep);
      assert [head[0]] + head[1..] == head;
      assert Split(s, sep) == [[s[0]] + rest[0]] + rest[1..];
    }
  }

  /** `s.includes(sub)`: `sub` occurs in `s` at some position. */
  predicate Includes(s: string, sub: string)
  {
    exists i | 0 <= i <= |s| - |sub| :: OccursAt(s, sub, i)
  }

  /** `sub` is written in `s` starting at position `i`. */
  predicate OccursAt(s: string, sub: string, i: int)
  {
    0 <= i <= |s| - |sub| && s[i..i + |sub|] == sub
  }

  /** A text includes whatever is written inside it. */
  lemma IncludesInfix(before: string, sub: string, after: string)
    ensures Includes(before + sub + after, sub)
  {
    var s := before + sub + after;
    assert OccursAt(s, sub, |before|);
  }

  /** A text that lacks one of the characters of `sub` does not include `sub`. */
  lemma {:induction false} NotIncludesMissingChar(s: string, sub: string, k: nat)
    requires k < |sub| && sub[k] !in s
    ensures !Includes(s, sub)
  {
    forall i | 0 <= i <= |s| - |sub|
      ensures !OccursAt(s, sub, i)
    {
      assert s[i..i + |sub|][k] == s[i + k];
    }
  }

  /**
   * A text in which one character of `sub` appears only once, at a place
   * where `sub` does not fit, does not include `sub`.
   */
  lemma {:induction false} NotIncludesSoleChar(before: string, c: char, after: string, sub: string, k: nat)
    requires k < |sub| && sub[k] !in before && sub[k] !in after
    requires !OccursAt(before + [c] + after, sub, |before| - k)
    ensures !Includes(before + [c] + after, sub)
  {
    var s := before + [c] + after;
    forall i | 0 <= i <= |s| - |sub|
      ensures !OccursAt(s, sub, i)
    {
      if i != |before| - k {
        assert s[i..i + |sub|][k] == s[i + k];
        if i + k < |before| {
          assert s[i + k] == before[i + k];
        } else {
          assert s[i + k] == after[i + k - |before| - 1];
        }
      }
    }
  }

  /** JavaScript truthiness of a nullable string: present and not empty. */
  predicate Truthy(o: Option<string>)
  {
    o.Some? && o.value != ""
  }
}
