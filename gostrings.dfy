/**
 * The pieces of Go's `strings` and `fmt` packages that the contact-form
 * handler relies on, stated over Dafny strings (`seq<char>`).
 */
module GoStrings {

  /** Number of occurrences of `c` in `s`. */
  function Count(s: string, c: char): (n: nat)
    ensures n <= |s|
    ensures n == 0 <==> c !in s
  {
    if s == [] then 0 else (if s[0] == c then 1 else 0) + Count(s[1..], c)
  }

  lemma {:induction false} CountConcat(a: string, b: string, c: char)
    ensures Count(a + b, c) == Count(a, c) + Count(b, c)
  {
    if a == [] {
      assert a + b == b;
    } else {
      assert (a + b)[1..] == a[1..] + b;
      CountConcat(a[1..], b, c);
    }
  }

  /** A character that occurs at exactly one index occurs once. */
  lemma {:induction false} CountOne(s: string, c: char, k: nat)
    requires k < |s| && s[k] == c
    requires forall i :: 0 <= i < |s| && s[i] == c ==> i == k
    ensures Count(s, c) == 1
  {
    if k == 0 {
      assert c !in s[1..] by {
        forall i | 0 <= i < |s| - 1 ensures s[1..][i] != c { assert s[1..][i] == s[i + 1]; }
      }
    } else {
      forall i | 0 <= i < |s| - 1 && s[1..][i] == c ensures i == k - 1 { assert s[1..][i] == s[i + 1]; }
      CountOne(s[1..], c, k - 1);
    }
  }

  /** `strings.Join(parts, string(sep))`. Go's `strings.Split` never returns an empty slice, hence the requires. */
  function Join(parts: seq<string>, sep: char): string
    requires |parts| >= 1
  {
    if |parts| == 1 then parts[0] else parts[0] + [sep] + Join(parts[1..], sep)
  }

  /**
   * `strings.Split(s, string(sep))`: the pieces of `s` between the
   * occurrences of `sep`. The empty string splits into one empty piece.
   */
  function Split(s: string, sep: char): (parts: seq<string>)
    ensures |parts| >= 1
  {
    if s == [] then [[]]
    else
      var rest := Split(s[1..], sep);
      if s[0] == sep then [[]] + rest else [[s[0]] + rest[0]] + rest[1..]
  }

  /** There is one more piece than there are separators, and no piece holds the separator. */
  lemma {:induction false} SplitPieces(s: string, sep: char)
    ensures |Split(s, sep)| == Count(s, sep) + 1
    ensures forall i :: 0 <= i < |Split(s, sep)| ==> sep !in Split(s, sep)[i]
  {
    if s != [] {
      var rest := Split(s[1..], sep);
      SplitPieces(s[1..], sep);
      assert s == [s[0]] + s[1..];
      CountConcat([s[0]], s[1..], sep);
      if s[0] != sep {
        var parts := Split(s, sep);
        assert parts[0] == [s[0]] + rest[0];
        forall i | 0 < i < |parts| ensures sep !in parts[i] { assert parts[i] == rest[i]; }
      }
    }
  }

  /** Joining the pieces with the separator gives back the split string. */
  lemma {:induction false} JoinSplit(s: string, sep: char)
    ensures Join(Split(s, sep), sep) == s
  {
    if s != [] {
      var rest := Split(s[1..], sep);
      JoinSplit(s[1..], sep);
      if s[0] == sep {
        assert Split(s, sep) == [[]] + rest;
        assert ([[]] + rest)[1..] == rest;
      } else {
        var parts := Split(s, sep);
        assert parts == [[s[0]] + rest[0]] + rest[1..];
        if |rest| == 1 {
          assert Join(parts, sep) == [s[0]] + rest[0];
        } else {
          assert parts[1..] == rest[1..];
          assert Join(rest, sep) == rest[0] + [sep] + Join(rest[1..], sep);
        }
      }
    }
  }

  /** Splitting a string that starts with a separator-free prefix `p` glues `p` onto the first piece. */
  lemma {:induction false} SplitPrepend(p: string, t: string, sep: char)
    requires sep !in p
    ensures Split(p + t, sep) == [p + Split(t, sep)[0]] + Split(t, sep)[1..]
  {
    if p != [] {
      assert (p + t)[0] == p[0];
      assert (p + t)[1..] == p[1..] + t;
      SplitPrepend(p[1..], t, sep);
      assert [p[0]] + (p[1..] + Split(t, sep)[0]) == p + Split(t, sep)[0];
    } else {
      var q := Split(t, sep);
      assert p + t == t && p + q[0] == q[0];
      assert q == [q[0]] + q[1..];
    }
  }

  /** Splitting separator-free pieces joined by the separator gives back the pieces. */
  lemma {:induction false} SplitJoin(parts: seq<string>, sep: char)
    requires |parts| >= 1
    requires forall i :: 0 <= i < |parts| ==> sep !in parts[i]
    ensures Split(Join(parts, sep), sep) == parts
  {
    if |parts| == 1 {
      SplitPrepend(parts[0], [], sep);
      assert parts[0] + [] == parts[0];
    } else {
      var tail := Join(parts[1..], sep);
      SplitJoin(parts[1..], sep);
      assert ([sep] + tail)[1..] == tail;
      assert Split([sep] + tail, sep) == [[]] + parts[1..];
      assert parts[0] + [sep] + tail == parts[0] + ([sep] + tail);
      SplitPrepend(parts[0], [sep] + tail, sep);
      assert parts[0] + [] == parts[0];
    }
  }

  /** A string without the separator splits into itself alone. */
  lemma SplitWithoutSeparator(s: string, sep: char)
    requires sep !in s
    ensures Split(s, sep) == [s]
  {
    SplitJoin([s], sep);
  }

  /**
   * `fmt.Sprintf(format, args...)` for a format whose only verbs are `%s`
   * (or `%+v` of a value already rendered as text): the format is given as
   * the literal pieces around its verbs, and each verb is replaced by its
   * argument verbatim.
   */
  function Sprintf(pieces: seq<string>, args: seq<string>): string
    requires |pieces| == |args| + 1
  {
    if args == [] then pieces[0] else pieces[0] + args[0] + Sprintf(pieces[1..], args[1..])
  }

  /** `s` contains each of `parts`, one after the other, without overlap. */
  ghost predicate ContainsInOrder(s: string, parts: seq<string>)
    decreases |parts|
  {
    parts == [] ||
    exists i :: 0 <= i <= |s| && parts[0] <= s[i..] && ContainsInOrder(s[i..][|parts[0]|..], parts[1..])
  }

  /** Every argument of `Sprintf` shows up in its result, in argument order. */
  lemma {:induction false} SprintfContainsArgs(pieces: seq<string>, args: seq<string>)
    requires |pieces| == |args| + 1
    ensures ContainsInOrder(Sprintf(pieces, args), args)
  {
    if args != [] {
      var rest := Sprintf(pieces[1..], args[1..]);
      SprintfContainsArgs(pieces[1..], args[1..]);
      var s := Sprintf(pieces, args);
      var i := |pieces[0]|;
      assert s == pieces[0] + (args[0] + rest);
      assert s[i..] == args[0] + rest;
      assert s[i..][|args[0]|..] == rest;
    }
  }

  /** Parts found in order in `s` are still found in order in anything that starts with `s`. */
  lemma {:induction false} ContainsInOrderExtend(s: string, t: string, parts: seq<string>)
    requires ContainsInOrder(s, parts) && s <= t
    ensures ContainsInOrder(t, parts)
    decreases |parts|
  {
    if parts != [] {
      var p := parts[0];
      var i :| 0 <= i <= |s| && p <= s[i..] && ContainsInOrder(s[i..][|p|..], parts[1..]);
      assert p <= t[i..] by {
        forall k | 0 <= k < |p| ensures p[k] == t[i..][k] {
          assert p[k] == s[i..][k] == s[i + k] == t[i + k];
        }
      }
      assert s[i..][|p|..] <= t[i..][|p|..] by {
        forall k | 0 <= k < |s[i..][|p|..]| ensures s[i..][|p|..][k] == t[i..][|p|..][k] {
          assert s[i..][|p|..][k] == s[i + |p| + k] == t[i + |p| + k];
        }
      }
      ContainsInOrderExtend(s[i..][|p|..], t[i..][|p|..], parts[1..]);
      assert 0 <= i <= |t| && p <= t[i..] && ContainsInOrder(t[i..][|p|..], parts[1..]);
    }
  }

  /** Parts found in order in a suffix of `s` are found in order in `s`. */
  lemma ContainsInOrderSuffix(s: string, k: nat, parts: seq<string>)
    requires k <= |s| && ContainsInOrder(s[k..], parts)
    ensures ContainsInOrder(s, parts)
  {
    if parts != [] {
      var p := parts[0];
      var i :| 0 <= i <= |s[k..]| && p <= s[k..][i..] && ContainsInOrder(s[k..][i..][|p|..], parts[1..]);
      assert s[k..][i..] == s[k + i..];
      assert 0 <= k + i <= |s| && p <= s[k + i..] && ContainsInOrder(s[k + i..][|p|..], parts[1..]);
    }
  }

  lemma ConcatHeadTail(a: seq<string>, b: seq<string>)
    requires a != []
    ensures (a + b)[0] == a[0] && (a + b)[1..] == a[1..] + b
  {
  }

  /**
   * When the last of the parts found in `s` is itself a string holding
   * `inner` in order, `s` holds the other parts followed by `inner`.
   */
  lemma {:induction false} ContainsInOrderNested(s: string, parts: seq<string>, last: string, inner: seq<string>)
    requires ContainsInOrder(s, parts + [last]) && ContainsInOrder(last, inner)
    ensures ContainsInOrder(s, parts + inner)
    decreases |parts|
  {
    if parts == [] {
      assert parts + [last] == [last];
      var i :| 0 <= i <= |s| && last <= s[i..] && ContainsInOrder(s[i..][|last|..], []);
      ContainsInOrderExtend(last, s[i..], inner);
      ContainsInOrderSuffix(s, i, inner);
      assert parts + inner == inner;
    } else {
      var p := parts[0];
      ConcatHeadTail(parts, [last]);
      var i :| 0 <= i <= |s| && p <= s[i..] && ContainsInOrder(s[i..][|p|..], parts[1..] + [last]);
      ContainsInOrderNested(s[i..][|p|..], parts[1..], last, inner);
      ConcatHeadTail(parts, inner);
      var q := parts + inner;
      assert 0 <= i <= |s| && q[0] <= s[i..] && ContainsInOrder(s[i..][|q[0]|..], q[1..]);
    }
  }
}
