/**
 * The clean-up the handler applies to the model's free-text answer before it
 * parses it: `rawContent.replace(/```json|```/g, '').trim()`.
 *
 * The regular expression is global, so one left-to-right scan deletes every
 * match; at each position the longer alternative "```json" is tried before
 * "```", and a position where neither matches is kept and the scan moves on by
 * one character. `trim` then removes the ECMAScript white space and line
 * terminators at both ends.
 */
module Fences {

  /** The three-backtick fence marker and its `json`-tagged variant. */
  const Fence: string := "```"
  const JsonFence: string := "```json"

  /** ECMAScript WhiteSpace and LineTerminator code points: what `trim` removes. */
  predicate IsJsWhitespace(c: char) {
    || c == '\t' || c == '\n' || c == '\U{000B}' || c == '\U{000C}' || c == '\r'
    || c == ' ' || c == '\U{00A0}' || c == '\U{1680}'
    || ('\U{2000}' <= c <= '\U{200A}')
    || c == '\U{2028}' || c == '\U{2029}' || c == '\U{202F}' || c == '\U{205F}'
    || c == '\U{3000}' || c == '\U{FEFF}'
  }

  /** True when `s` neither starts nor ends with white space. */
  predicate IsTrimmed(s: string) {
    s == [] || (!IsJsWhitespace(s[0]) && !IsJsWhitespace(s[|s| - 1]))
  }

  /**
   * The end of the run of white space that starts at `i`: the first index at
   * or after `i` that holds a non-white-space character, or `|s|`.
   */
  function LeadingEnd(s: string, i: nat): (n: nat)
    requires i <= |s|
    ensures i <= n <= |s|
    ensures forall k :: i <= k < n ==> IsJsWhitespace(s[k])
    ensures n == |s| || !IsJsWhitespace(s[n])
    decreases |s| - i
  {
    if i < |s| && IsJsWhitespace(s[i]) then LeadingEnd(s, i + 1) else i
  }

  /**
   * The start of the run of white space that ends at `j`, not going below
   * `lo`: the index just after the last non-white-space character of
   * `s[lo..j]`, or `lo`.
   */
  function TrailingStart(s: string, lo: nat, j: nat): (m: nat)
    requires lo <= j <= |s|
    ensures lo <= m <= j
    ensures forall k :: m <= k < j ==> IsJsWhitespace(s[k])
    ensures m == lo || !IsJsWhitespace(s[m - 1])
    decreases j
  {
    if j > lo && IsJsWhitespace(s[j - 1]) then TrailingStart(s, lo, j - 1) else j
  }

  /**
   * `String.prototype.trim`: the result is the slice of `s` left once every
   * white-space character at either end is gone, and it is itself trimmed.
   */
  function Trim(s: string): (r: string)
    ensures IsTrimmed(r)
    ensures exists a, b | 0 <= a <= b <= |s| ::
              && r == s[a..b]
              && (forall k :: 0 <= k < a ==> IsJsWhitespace(s[k]))
              && (forall k :: b <= k < |s| ==> IsJsWhitespace(s[k]))
  {
    var a := LeadingEnd(s, 0);
    var b := TrailingStart(s, a, |s|);
    s[a..b]
  }

  /** A fence marker "```" starts at index `i` of `s`. */
  predicate FenceAt(s: string, i: nat) {
    i + 3 <= |s| && s[i] == '`' && s[i + 1] == '`' && s[i + 2] == '`'
  }

  /** `s` starts with "```json". */
  predicate StartsWithJsonFence(s: string) {
    FenceAt(s, 0) && |s| >= 7 && s[3..7] == "json"
  }

  predicate HasFence(s: string) {
    exists i: nat :: i < |s| && FenceAt(s, i)
  }

  /** One global pass of `replace(/```json|```/g, '')`. */
  function StripFences(s: string): string
  {
    if StartsWithJsonFence(s) then StripFences(s[7..])
    else if FenceAt(s, 0) then StripFences(s[3..])
    else if s == [] then []
    else [s[0]] + StripFences(s[1..])
  }

  /** The string the handler hands to the JSON parser. */
  function Clean(raw: string): string {
    Trim(StripFences(raw))
  }

  // ---------------------------------------------------------------------
  // Properties of Trim
  // ---------------------------------------------------------------------

  /** Trimming a string that has no surrounding white space changes nothing. */
  lemma TrimmedIsFixed(s: string)
    requires IsTrimmed(s)
    ensures Trim(s) == s
  {
  }

  /** Trimming twice is trimming once. */
  lemma TrimIdempotent(s: string)
    ensures Trim(Trim(s)) == Trim(s)
  {
    TrimmedIsFixed(Trim(s));
  }

  /** One white-space character on each side of a trimmed string is removed. */
  lemma TrimSurrounded(c: char, body: string, d: char)
    requires IsJsWhitespace(c) && IsJsWhitespace(d) && IsTrimmed(body)
    ensures Trim([c] + body + [d]) == body
  {
    var s := [c] + body + [d];
    if body == [] {
      assert LeadingEnd(s, 0) == 2;
    } else {
      assert s[1] == body[0] && s[|s| - 2] == body[|body| - 1];
      assert LeadingEnd(s, 0) == 1;
      assert TrailingStart(s, 1, |s|) == |s| - 1;
      assert s[1..|s| - 1] == body;
    }
  }

  /** Trimming never introduces a fence: the result is a slice of its input. */
  lemma TrimKeepsNoFence(s: string)
    requires !HasFence(s)
    ensures !HasFence(Trim(s))
  {
    var r := Trim(s);
    var a, b :| 0 <= a <= b <= |s| && r == s[a..b];
    forall j: nat | j < |r|
      ensures !FenceAt(r, j)
    {
      assert !FenceAt(s, a + j);
    }
  }

  // ---------------------------------------------------------------------
  // Properties of StripFences
  // ---------------------------------------------------------------------

  /** A string without a backtick at its head keeps its head. */
  lemma StripKeepsPlainHead(s: string)
    requires s != [] && s[0] != '`'
    ensures StripFences(s) != [] && StripFences(s)[0] == s[0]
  {
  }

  /** Removing the head of a fence-free string leaves it fence-free. */
  lemma NoFenceInTail(s: string)
    requires s != [] && !HasFence(s)
    ensures !HasFence(s[1..])
  {
    forall j: nat | j < |s[1..]|
      ensures !FenceAt(s[1..], j)
    {
      assert !FenceAt(s, j + 1);
    }
  }

  /** A string with no "```" (and so no "```json") is returned unchanged. */
  lemma {:induction false} StripFencesFixed(s: string)
    requires !HasFence(s)
    ensures StripFences(s) == s
  {
    if s != [] {
      assert !FenceAt(s, 0);
      NoFenceInTail(s);
      StripFencesFixed(s[1..]);
    }
  }

  /**
   * After the pass no "```" is left anywhere, not even one that the deletions
   * could have brought together: every backtick that survives stands in a run
   * of fewer than three backticks of the input.
   */
  lemma {:induction false} StripLeavesNoFence(s: string)
    ensures !HasFence(StripFences(s))
  {
    if StartsWithJsonFence(s) {
      StripLeavesNoFence(s[7..]);
    } else if FenceAt(s, 0) {
      StripLeavesNoFence(s[3..]);
    } else if s != [] {
      var t := StripFences(s[1..]);
      StripLeavesNoFence(s[1..]);
      var r := [s[0]] + t;
      assert StripFences(s) == r;
      if s[0] != '`' || |s| == 1 {
        assert !FenceAt(r, 0);
      } else if s[1] != '`' {
        StripKeepsPlainHead(s[1..]);
        assert !FenceAt(r, 0);
      } else {
        // a run of exactly two backticks: the next character is plain
        var u := s[1..];
        assert !FenceAt(u, 0) && !StartsWithJsonFence(u);
        assert t == [u[0]] + StripFences(u[1..]);
        if |u| > 1 {
          StripKeepsPlainHead(u[1..]);
        }
        assert !FenceAt(r, 0);
      }
      forall j: nat | j < |r|
        ensures !FenceAt(r, j)
      {
        if j > 0 {
          assert !FenceAt(t, j - 1);
        }
      }
    }
  }

  /** Stripping a tagged opening fence is stripping what follows it. */
  lemma StripJsonFencePrefix(s: string)
    ensures StripFences(JsonFence + s) == StripFences(s)
  {
    var u := JsonFence + s;
    assert u[3..7] == "json";
    assert StartsWithJsonFence(u);
    assert u[7..] == s;
  }

  /**
   * A closing fence after fence-free text that does not end in a backtick
   * is removed and nothing else is. (The condition on the last character
   * only keeps the proof short: after text ending in one or two backticks
   * the first three backticks of the final run are deleted, which again
   * leaves the text as it was.)
   */
  lemma {:induction false} StripClosingFence(s: string)
    requires !HasFence(s) && (s == [] || s[|s| - 1] != '`')
    ensures StripFences(s + Fence) == s
  {
    var u := s + Fence;
    if s == [] {
      assert u == Fence;
      assert FenceAt(u, 0) && !StartsWithJsonFence(u);
      assert u[3..] == [];
    } else {
      assert !FenceAt(u, 0) by {
        if |s| >= 3 {
          assert !FenceAt(s, 0);
        } else {
          assert u[|s| - 1] == s[|s| - 1];
        }
      }
      NoFenceInTail(s);
      StripClosingFence(s[1..]);
      assert u[1..] == s[1..] + Fence;
    }
  }

  /**
   * Fence-free text that does not end in a backtick is kept as it is, and the
   * pass goes on with what follows as if that text were not there.
   */
  lemma {:induction false} KeepPrefix(a: string, s: string)
    requires !HasFence(a) && (a == [] || a[|a| - 1] != '`')
    ensures StripFences(a + s) == a + StripFences(s)
  {
    if a == [] {
      assert a + s == s;
    } else {
      var u := a + s;
      assert !FenceAt(u, 0) by {
        if |a| >= 3 {
          assert !FenceAt(a, 0);
        } else {
          assert u[|a| - 1] == a[|a| - 1];
        }
      }
      NoFenceInTail(a);
      KeepPrefix(a[1..], s);
      assert u[1..] == a[1..] + s;
      assert StripFences(u) == [u[0]] + StripFences(u[1..]);
      assert a + StripFences(s) == [a[0]] + (a[1..] + StripFences(s));
    }
  }

  /** An untagged opening fence not followed by `json` is deleted on its own. */
  lemma PlainFencePrefix(s: string)
    requires !(|s| >= 4 && s[0] == 'j' && s[1] == 's' && s[2] == 'o' && s[3] == 'n')
    ensures StripFences(Fence + s) == StripFences(s)
  {
    var u := Fence + s;
    assert FenceAt(u, 0);
    assert !StartsWithJsonFence(u) by {
      if |u| >= 7 {
        assert u[3] == s[0] && u[4] == s[1] && u[5] == s[2] && u[6] == s[3];
        assert u[3..7][0] == u[3] && u[3..7][1] == u[4] && u[3..7][2] == u[5] && u[3..7][3] == u[6];
      }
    }
    assert u[3..] == s;
  }

  // ---------------------------------------------------------------------
  // Properties of Clean
  // ---------------------------------------------------------------------

  /** The cleaned text has no surrounding white space and no fence left. */
  lemma CleanIsTrimmedAndFenceFree(raw: string)
    ensures IsTrimmed(Clean(raw)) && !HasFence(Clean(raw))
  {
    StripLeavesNoFence(raw);
    TrimKeepsNoFence(StripFences(raw));
  }

  /** Text with no fence and no surrounding white space passes unchanged. */
  lemma CleanFixed(raw: string)
    requires !HasFence(raw) && IsTrimmed(raw)
    ensures Clean(raw) == raw
  {
    StripFencesFixed(raw);
    TrimmedIsFixed(raw);
  }

  /** Putting a fence-free body on a line of its own adds no fence. */
  lemma OnOwnLineNoFence(body: string)
    requires !HasFence(body)
    ensures !HasFence("\n" + body + "\n")
  {
    var inner := "\n" + body + "\n";
    forall j: nat | j < |inner|
      ensures !FenceAt(inner, j)
    {
      if 1 <= j && j + 3 <= |body| + 1 {
        assert !FenceAt(body, j - 1);
        assert inner[j] == body[j - 1] && inner[j + 1] == body[j] && inner[j + 2] == body[j + 1];
      } else if j + 3 == |inner| {
        assert inner[j + 2] == '\n';
      }
    }
  }

  /** A reply wrapped as "```json\n" + body + "\n```" is cleaned back to body. */
  lemma CleanFencedBody(body: string)
    requires !HasFence(body) && IsTrimmed(body)
    ensures Clean(JsonFence + "\n" + body + "\n" + Fence) == body
  {
    var inner := "\n" + body + "\n";
    assert JsonFence + "\n" + body + "\n" + Fence == JsonFence + (inner + Fence);
    StripJsonFencePrefix(inner + Fence);
    OnOwnLineNoFence(body);
    StripClosingFence(inner);
    TrimSurrounded('\n', body, '\n');
  }

  /** A reply wrapped as "```\n" + body + "\n```" is cleaned back to body. */
  lemma CleanPlainFencedBody(body: string)
    requires !HasFence(body) && IsTrimmed(body)
    ensures Clean(Fence + "\n" + body + "\n" + Fence) == body
  {
    var inner := "\n" + body + "\n";
    assert Fence + "\n" + body + "\n" + Fence == Fence + (inner + Fence);
    PlainFencePrefix(inner + Fence);
    OnOwnLineNoFence(body);
    StripClosingFence(inner);
    TrimSurrounded('\n', body, '\n');
  }
}
