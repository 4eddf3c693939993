/** Python string operations used by the services: `in` on strings, ordering, `lower()`,
    `":".join(...)` and `os.path.join`. */
module Text {

  /** `sub in s` for Python strings: `sub` occurs at some offset of `s`. */
  predicate Contains(s: string, sub: string)
    decreases |s|
  {
    if |sub| > |s| then false
    else if s[..|sub|] == sub then true
    else Contains(s[1..], sub)
  }

  /** `sub` occurs in `s` starting at offset `i`. */
  predicate OccursAt(s: string, sub: string, i: nat)
  {
    i + |sub| <= |s| && s[i..i + |sub|] == sub
  }

  lemma OccursShift(s: string, sub: string, i: nat)
    requires 0 < i && |s| > 0
    ensures OccursAt(s, sub, i) <==> OccursAt(s[1..], sub, i - 1)
  {
    if i + |sub| <= |s| {
      assert s[i..i + |sub|] == s[1..][i - 1..i - 1 + |sub|];
    }
  }

  /** The recursive test agrees with the existence of an offset at which `sub` occurs. */
  lemma {:induction false} ContainsIff(s: string, sub: string)
    ensures Contains(s, sub) <==> exists i: nat :: OccursAt(s, sub, i)
    decreases |s|
  {
    if |sub| > |s| {
    } else if s[..|sub|] == sub {
      assert OccursAt(s, sub, 0);
    } else {
      ContainsIff(s[1..], sub);
      if Contains(s, sub) {
        var i: nat :| OccursAt(s[1..], sub, i);
        OccursShift(s, sub, i + 1);
      } else {
        forall i: nat | OccursAt(s, sub, i)
          ensures false
        {
          if i > 0 {
            OccursShift(s, sub, i);
          }
        }
      }
    }
  }

  /** A string that starts with `sub` contains it. */
  lemma ContainsPrefix(s: string, sub: string)
    requires |sub| <= |s| && s[..|sub|] == sub
    ensures Contains(s, sub)
  {
  }

  /** Whatever a string contains, the same string extended on either side contains too. */
  lemma ContainsWithin(pre: string, s: string, post: string, sub: string)
    requires Contains(s, sub)
    ensures Contains(pre + s + post, sub)
  {
    ContainsIff(s, sub);
    var i: nat :| OccursAt(s, sub, i);
    var whole := pre + s + post;
    assert whole[|pre| + i..|pre| + i + |sub|] == s[i..i + |sub|];
    assert OccursAt(whole, sub, |pre| + i);
    ContainsIff(whole, sub);
  }

  /** Python's `<` on strings: lexicographic by code point, a proper prefix first. */
  predicate StrLess(a: string, b: string)
    decreases |a|
  {
    if |a| == 0 then |b| > 0
    else if |b| == 0 then false
    else if a[0] != b[0] then a[0] < b[0]
    else StrLess(a[1..], b[1..])
  }

  /** Python's `>=` on strings. */
  predicate StrGe(a: string, b: string)
  {
    !StrLess(a, b)
  }

  lemma {:induction false} StrLessIrreflexive(a: string)
    ensures !StrLess(a, a)
    decreases |a|
  {
    if |a| > 0 {
      StrLessIrreflexive(a[1..]);
    }
  }

  lemma {:induction false} StrLessTransitive(a: string, b: string, c: string)
    requires StrLess(a, b) && StrLess(b, c)
    ensures StrLess(a, c)
    decreases |a|
  {
    if |a| > 0 && a[0] == b[0] && b[0] == c[0] {
      StrLessTransitive(a[1..], b[1..], c[1..]);
    }
  }

  /** Any two different strings are ordered one way or the other. */
  lemma {:induction false} StrLessTotal(a: string, b: string)
    requires a != b
    ensures StrLess(a, b) || StrLess(b, a)
    decreases |a|
  {
    if |a| > 0 && |b| > 0 && a[0] == b[0] {
      assert a == [a[0]] + a[1..] && b == [b[0]] + b[1..];
      StrLessTotal(a[1..], b[1..]);
    }
  }

  /** `s.lower()` restricted to ASCII letters. */
  function ToLower(s: string): (r: string)
    ensures |r| == |s|
    ensures forall i :: 0 <= i < |s| ==> r[i] == LowerChar(s[i])
  {
    seq(|s|, i requires 0 <= i < |s| => LowerChar(s[i]))
  }

  function LowerChar(c: char): char
  {
    if 'A' <= c <= 'Z' then (c as int - 'A' as int + 'a' as int) as char else c
  }

  /** Lower-casing twice changes nothing more than lower-casing once. */
  lemma ToLowerIdempotent(s: string)
    ensures ToLower(ToLower(s)) == ToLower(s)
  {
    forall i | 0 <= i < |s|
      ensures ToLower(ToLower(s))[i] == ToLower(s)[i]
    {
      var c := s[i];
      if 'A' <= c <= 'Z' {
        assert 'a' <= LowerChar(c) <= 'z';
      }
    }
  }

  /** `sep.join(parts)`. */
  function JoinWith(sep: string, parts: seq<string>): string
  {
    if parts == [] then ""
    else if |parts| == 1 then parts[0]
    else parts[0] + sep + JoinWith(sep, parts[1..])
  }

  /** `os.path.join(path, b)` on POSIX: an absolute `b` replaces what came before;
      a separator is added only when `path` is non-empty and does not end in one. */
  function PathJoin(path: string, b: string): (r: string)
  {
    if |b| > 0 && b[0] == '/' then b
    else if path == [] || path[|path| - 1] == '/' then path + b
    else path + "/" + b
  }

  /** A relative component that does not end in a separator is placed under `path` with one separator. */
  lemma PathJoinRelative(path: string, b: string)
    requires path != [] && path[|path| - 1] != '/'
    requires |b| > 0 && b[0] != '/'
    ensures PathJoin(path, b) == path + "/" + b
  {
  }

  /** An absolute component discards the directory it is joined to. */
  lemma PathJoinAbsolute(path: string, b: string)
    requires |b| > 0 && b[0] == '/'
    ensures PathJoin(path, b) == b
  {
  }
}
