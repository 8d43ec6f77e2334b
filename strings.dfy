// The few JavaScript string primitives the storefront relies on, for a
// single-character separator: `split(c)`, `join(sep)`, the split/join idiom for
// replacing every occurrence of a character, and `includes`.
module Strings {

  /** Number of occurrences of `c` in `s`. */
  function Count(s: string, c: char): nat
  {
    if s == [] then 0
    else (if s[0] == c then 1 else 0) + Count(s[1..], c)
  }

  /** `s.split(c)`: the pieces between occurrences of `c`; "" splits into [""]. */
  function Split(s: string, c: char): (parts: seq<string>)
    ensures |parts| >= 1
  {
    if s == [] then [[]]
    else
      var rest := Split(s[1..], c);
      if s[0] == c then [[]] + rest
      else [[s[0]] + rest[0]] + rest[1..]
  }

  /** `parts.join(sep)`; the empty list joins to "". */
  function Join(parts: seq<string>, sep: string): string
  {
    if parts == [] then []
    else if |parts| == 1 then parts[0]
    else parts[0] + sep + Join(parts[1..], sep)
  }

  /** Every occurrence of `a` replaced by `b`, all other characters kept. */
  function Replace(s: string, a: char, b: char): (r: string)
    ensures |r| == |s|
    ensures forall i :: 0 <= i < |s| ==> r[i] == if s[i] == a then b else s[i]
  {
    if s == [] then [] else [if s[0] == a then b else s[0]] + Replace(s[1..], a, b)
  }

  /** `hay.includes(needle)`. */
  predicate Contains(hay: string, needle: string)
    decreases |hay|
  {
    needle <= hay || (hay != [] && Contains(hay[1..], needle))
  }

  /** Splitting on `c` yields one more piece than there are `c`s. */
  lemma {:induction false} SplitCount(s: string, c: char)
    ensures |Split(s, c)| == Count(s, c) + 1
  {
    if s != [] {
      SplitCount(s[1..], c);
    }
  }

  /** No piece of a split contains the separator. */
  lemma {:induction false} SplitPiecesFree(s: string, c: char)
    ensures forall k :: 0 <= k < |Split(s, c)| ==> c !in Split(s, c)[k]
  {
    if s != [] {
      SplitPiecesFree(s[1..], c);
    }
  }

  /** Joining the pieces of a split with the separator restores the string. */
  lemma {:induction false} JoinSplit(s: string, c: char)
    ensures Join(Split(s, c), [c]) == s
  {
    if s != [] {
      var rest := Split(s[1..], c);
      JoinSplit(s[1..], c);
      if s[0] == c {
        assert Split(s, c) == [[]] + rest;
        if |rest| == 1 {
          assert Join(Split(s, c), [c]) == [] + [c] + rest[0];
        } else {
          assert ([[]] + rest)[1..] == rest;
        }
      } else {
        var parts := [[s[0]] + rest[0]] + rest[1..];
        assert Split(s, c) == parts;
        if |rest| == 1 {
          assert Join(parts, [c]) == [s[0]] + rest[0];
        } else {
          assert parts[1..] == rest[1..];
          assert Join(rest, [c]) == rest[0] + [c] + Join(rest[1..], [c]);
        }
      }
    }
  }

  /** Conversely, splitting a join of separator-free pieces gives the pieces back. */
  lemma {:induction false} SplitJoin(parts: seq<string>, c: char)
    requires |parts| >= 1
    requires forall k :: 0 <= k < |parts| ==> c !in parts[k]
    ensures Split(Join(parts, [c]), c) == parts
  {
    if |parts| == 1 {
      SplitFree(parts[0], c);
    } else {
      SplitJoin(parts[1..], c);
      SplitFreePrefix(parts[0], Join(parts[1..], [c]), c);
      assert Join(parts, [c]) == parts[0] + ([c] + Join(parts[1..], [c]));
      assert [parts[0]] + parts[1..] == parts;
    }
  }

  lemma {:induction false} SplitFree(s: string, c: char)
    requires c !in s
    ensures Split(s, c) == [s]
  {
    if s != [] {
      SplitFree(s[1..], c);
      assert [s[0]] + s[1..] == s;
    }
  }

  /** A separator-free prefix followed by the separator becomes the first piece. */
  lemma {:induction false} SplitFreePrefix(p: string, t: string, c: char)
    requires c !in p
    ensures Split(p + ([c] + t), c) == [p] + Split(t, c)
  {
    if p == [] {
      assert p + ([c] + t) == [c] + t;
      assert ([c] + t)[1..] == t;
    } else {
      SplitFreePrefix(p[1..], t, c);
      var s := p + ([c] + t);
      assert s[0] == p[0] && s[1..] == p[1..] + ([c] + t);
      assert [p[0]] + p[1..] == p;
    }
  }

  /** The split/join idiom `s.split(a).join(b)` replaces every `a` by `b`. */
  lemma {:induction false} SplitJoinReplaces(s: string, a: char, b: char)
    ensures Join(Split(s, a), [b]) == Replace(s, a, b)
  {
    if s != [] {
      var rest := Split(s[1..], a);
      SplitJoinReplaces(s[1..], a, b);
      if s[0] == a {
        if |rest| == 1 {
          assert Join(Split(s, a), [b]) == [] + [b] + rest[0];
        } else {
          assert ([[]] + rest)[1..] == rest;
        }
      } else {
        var parts := [[s[0]] + rest[0]] + rest[1..];
        if |rest| == 1 {
          assert Join(parts, [b]) == [s[0]] + rest[0];
        } else {
          assert parts[1..] == rest[1..];
          assert Join(rest, [b]) == rest[0] + [b] + Join(rest[1..], [b]);
        }
      }
    }
  }

  /** Every string contains the empty string (`includes("")` is true). */
  lemma ContainsEmpty(hay: string)
    ensures Contains(hay, [])
  {
  }
}
