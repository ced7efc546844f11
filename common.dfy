/**
 * Small value types and string helpers shared by the modules of this model:
 * Option/Result for the source's nullable values and exceptions, and the
 * JavaScript string operations the source relies on (`join`, `split`,
 * `trim`, concatenation of streamed chunks).
 */
module Common {

  datatype Option<+T> = None | Some(value: T)

  datatype Result<+T, +E> = Ok(value: T) | Err(error: E)

  /** A JavaScript value is "truthy" as a string exactly when it is non-empty. */
  predicate Truthy(s: Option<string>)
  {
    s.Some? && s.value != ""
  }

  /** `a || b` on an optional string: the left one when truthy, else the default. */
  function OrDefault(s: Option<string>, default: string): (r: string)
    ensures Truthy(s) ==> r == s.value
    ensures !Truthy(s) ==> r == default
  {
    if s.Some? && s.value != "" then s.value else default
  }

  /** What an async generator or a stream reader produced: the values it
      yielded, then either normal completion (None) or the message of the
      error it threw. */
  datatype Stream = Stream(items: seq<string>, error: Option<string>)

  /** In-order concatenation of streamed chunks. */
  function Concat(chunks: seq<string>): string
  {
    if |chunks| == 0 then "" else chunks[0] + Concat(chunks[1..])
  }

  lemma {:induction false} ConcatAppend(a: seq<string>, b: seq<string>)
    ensures Concat(a + b) == Concat(a) + Concat(b)
  {
    if |a| == 0 {
      assert a + b == b;
    } else {
      assert (a + b)[1..] == a[1..] + b;
      ConcatAppend(a[1..], b);
    }
  }

  /** Concatenating the chunks one by one, as a streaming loop does, yields Concat. */
  lemma ConcatSnoc(a: seq<string>, x: string)
    ensures Concat(a + [x]) == Concat(a) + x
  {
    ConcatAppend(a, [x]);
    assert Concat([x]) == x + Concat([]);
  }

  /** A common prefix can be cancelled from two equal concatenations. */
  lemma AppendCancelLeft<T>(x: seq<T>, y: seq<T>, z: seq<T>)
    requires x + y == x + z
    ensures y == z
  {
    assert y == (x + y)[|x|..];
    assert z == (x + z)[|x|..];
  }

  /** A common suffix can be cancelled from two equal concatenations. */
  lemma AppendCancelRight<T>(x: seq<T>, y: seq<T>, z: seq<T>)
    requires x + z == y + z
    ensures x == y
  {
    assert |x| == |y|;
    assert x == (x + z)[..|x|];
    assert y == (y + z)[..|y|];
  }

  /** A common prefix and suffix can be cancelled from two equal concatenations. */
  lemma InfixCancel<T>(pre: seq<T>, a: seq<T>, b: seq<T>, post: seq<T>)
    requires pre + a + post == pre + b + post
    ensures a == b
  {
    assert pre + a + post == pre + (a + post);
    assert pre + b + post == pre + (b + post);
    AppendCancelLeft(pre, a + post, b + post);
    AppendCancelRight(a, b, post);
  }

  /** Appending a non-empty sequence changes the sequence. */
  lemma AppendNonEmpty<T>(x: seq<T>, y: seq<T>)
    requires |y| > 0
    ensures x + y != x
  {
    assert |x + y| > |x|;
  }

  /** `.filter(Boolean)` on strings: drop the empty ones, keeping the order. */
  function DropEmpty(lines: seq<string>): seq<string>
  {
    if |lines| == 0 then []
    else if lines[0] == "" then DropEmpty(lines[1..])
    else [lines[0]] + DropEmpty(lines[1..])
  }

  /** `Array.prototype.join(sep)`. */
  function Join(lines: seq<string>, sep: string): string
  {
    if |lines| == 0 then ""
    else if |lines| == 1 then lines[0]
    else lines[0] + sep + Join(lines[1..], sep)
  }

  /** `String.prototype.split(c)` for a one-character separator. */
  function Split(s: string, c: char): (parts: seq<string>)
    ensures |parts| >= 1
  {
    if |s| == 0 then [""]
    else if s[0] == c then [""] + Split(s[1..], c)
    else
      var rest := Split(s[1..], c);
      [[s[0]] + rest[0]] + rest[1..]
  }

  /** Splitting and joining again with the same separator is the identity. */
  lemma {:induction false} SplitJoin(s: string, c: char)
    ensures Join(Split(s, c), [c]) == s
  {
    if |s| == 0 {
    } else {
      var rest := Split(s[1..], c);
      SplitJoin(s[1..], c);
      assert s == [s[0]] + s[1..];
      if s[0] == c {
        assert Split(s, c) == [""] + rest;
        assert ([""] + rest)[1..] == rest;
      } else if |rest| == 1 {
        assert Split(s, c) == [[s[0]] + rest[0]];
      } else {
        var parts := [[s[0]] + rest[0]] + rest[1..];
        assert Split(s, c) == parts;
        assert parts[1..] == rest[1..];
        assert Join(parts, [c]) == [s[0]] + (rest[0] + [c] + Join(rest[1..], [c]));
      }
    }
  }

  /** No part produced by Split contains the separator. */
  lemma {:induction false} SplitNoSeparator(s: string, c: char)
    ensures forall k :: 0 <= k < |Split(s, c)| ==> c !in Split(s, c)[k]
  {
    if |s| > 0 {
      SplitNoSeparator(s[1..], c);
      var rest := Split(s[1..], c);
      if s[0] != c {
        var parts := [[s[0]] + rest[0]] + rest[1..];
        assert Split(s, c) == parts;
        forall k | 0 <= k < |parts| ensures c !in parts[k] {
          if k > 0 { assert parts[k] == rest[k]; }
        }
      }
    }
  }

  /** The characters ECMAScript's `String.prototype.trim` removes: the
      WhiteSpace and LineTerminator productions (TAB, VT, FF, SP, NBSP,
      ZWNBSP, the Zs category, LF, CR, LS, PS). */
  predicate IsJsSpace(c: char)
  {
    c == '\t' || c == '\n' || c == '\U{000B}' || c == '\U{000C}' || c == '\r' ||
    c == ' ' || c == '\U{00A0}' || c == '\U{1680}' || ('\U{2000}' <= c <= '\U{200A}') ||
    c == '\U{2028}' || c == '\U{2029}' || c == '\U{202F}' || c == '\U{205F}' ||
    c == '\U{3000}' || c == '\U{FEFF}'
  }

  /** Index of the first character that is not whitespace (or |s|). */
  function TrimStartIndex(s: string): (i: nat)
    ensures i <= |s|
    ensures forall k :: 0 <= k < i ==> IsJsSpace(s[k])
    ensures i < |s| ==> !IsJsSpace(s[i])
  {
    if |s| == 0 || !IsJsSpace(s[0]) then 0 else 1 + TrimStartIndex(s[1..])
  }

  /** One past the index of the last character that is not whitespace (or 0). */
  function TrimEndIndex(s: string): (j: nat)
    ensures j <= |s|
    ensures forall k :: j <= k < |s| ==> IsJsSpace(s[k])
    ensures j > 0 ==> !IsJsSpace(s[j - 1])
  {
    if |s| == 0 || !IsJsSpace(s[|s| - 1]) then |s| else TrimEndIndex(s[..|s| - 1])
  }

  /** `r` is `s[i..j]` and everything of `s` outside that slice is whitespace. */
  predicate SliceBetweenSpaces(s: string, r: string, i: int, j: int)
  {
    0 <= i <= j <= |s| && r == s[i..j] &&
    (forall k :: 0 <= k < i ==> IsJsSpace(s[k])) &&
    (forall k :: j <= k < |s| ==> IsJsSpace(s[k]))
  }

  /** `String.prototype.trim`: the slice between the leading and trailing
      whitespace; only whitespace is removed, and only at the two ends. */
  function Trim(s: string): (r: string)
    ensures |r| <= |s|
    ensures exists i, j :: SliceBetweenSpaces(s, r, i, j)
    ensures r != "" ==> !IsJsSpace(r[0]) && !IsJsSpace(r[|r| - 1])
  {
    var i := TrimStartIndex(s);
    var j := TrimEndIndex(s[i..]);
    assert SliceBetweenSpaces(s, s[i..][..j], i, i + j) by {
      assert s[i..][..j] == s[i..i + j];
      forall k | i + j <= k < |s| ensures IsJsSpace(s[k]) {
        assert s[k] == s[i..][k - i];
      }
    }
    s[i..][..j]
  }

  /** `!s.trim()` holds exactly when every character of `s` is whitespace. */
  lemma TrimEmpty(s: string)
    ensures Trim(s) == "" <==> forall k :: 0 <= k < |s| ==> IsJsSpace(s[k])
  {
    var i := TrimStartIndex(s);
    var t := s[i..];
    var j := TrimEndIndex(t);
    if Trim(s) == "" {
      assert i == |s|;
    } else {
      assert i < |s|;
    }
  }

  /** Trimming is idempotent. */
  lemma TrimTwice(s: string)
    ensures Trim(Trim(s)) == Trim(s)
  {
    var r := Trim(s);
    if r != "" {
      assert TrimStartIndex(r) == 0;
      assert r[0..] == r;
      assert TrimEndIndex(r) == |r|;
    }
  }
}
