/** The markdown clean-up applied to the generator's reply: three anchored
    regular-expression replacements, applied in order and each at most once.
    Without the `m` flag, `^` anchors at the start of the whole text and `$`
    at its very end, so each replacement is a prefix or suffix test. */
module Fence {
  import opened Common

  /** A leading fence tagged `latex`. */
  const LatexOpen := "```latex\n"
  /** A leading fence with no tag. */
  const PlainOpen := "```\n"
  /** A trailing fence at the very end of the text. */
  const Close := "\n```"
  /** Three backticks: the start of any fence. */
  const Ticks := "```"

  predicate StartsWith(s: string, p: string) {
    |p| <= |s| && s[..|p|] == p
  }

  predicate EndsWith(s: string, p: string) {
    |p| <= |s| && s[|s| - |p|..] == p
  }

  /** `s.replace(/^p/, '')` for a literal pattern `p`. */
  function StripLeading(s: string, p: string): (r: string)
    ensures StartsWith(s, p) ==> p + r == s
    ensures !StartsWith(s, p) ==> r == s
  {
    if StartsWith(s, p) then s[|p|..] else s
  }

  /** `s.replace(/p$/, '')` for a literal pattern `p`. */
  function StripTrailing(s: string, p: string): (r: string)
    ensures EndsWith(s, p) ==> r + p == s
    ensures !EndsWith(s, p) ==> r == s
  {
    if EndsWith(s, p) then s[..|s| - |p|] else s
  }

  /** The clean-up chain of `generateLatexFromPdf`: it only ever cuts text
      off the two ends, and it leaves the text alone exactly when none of
      the three fences is present. */
  function CleanFence(s: string): (r: string)
    ensures |r| <= |s|
    ensures Contains(s, r)
    ensures r == s <==> !StartsWith(s, LatexOpen) && !StartsWith(s, PlainOpen) && !EndsWith(s, Close)
  {
    var a := StripLeading(s, LatexOpen);
    var b := StripLeading(a, PlainOpen);
    var c := StripTrailing(b, Close);
    var i := |s| - |b|;
    assert b == s[i..];
    assert c == s[i..i + |c|];
    assert Contains(s, c) by { assert 0 <= i <= i + |c| <= |s|; }
    c
  }

  /** A reply wrapped in a `latex`-tagged fence. */
  function WrapTagged(x: string): string {
    LatexOpen + x + Close
  }

  /** A reply wrapped in an untagged fence. */
  function WrapPlain(x: string): string {
    PlainOpen + x + Close
  }

  /** Clean-up undoes a `latex`-tagged fence, provided the body does not
      itself open with three backticks. */
  lemma {:induction false} CleanTaggedRoundTrip(x: string)
    requires !StartsWith(x, Ticks)
    ensures CleanFence(WrapTagged(x)) == x
  {
    var a := x + Close;
    assert WrapTagged(x) == LatexOpen + a;
    LeadingOf(LatexOpen, a);
    assert !StartsWith(a, PlainOpen) by {
      if |x| >= 3 {
        assert a[..3] == x[..3];
      } else {
        assert a[|x|] == '\n';
      }
    }
    TrailingOf(x, Close);
  }

  /** Clean-up undoes an untagged fence, whatever the body. */
  lemma {:induction false} CleanPlainRoundTrip(x: string)
    ensures CleanFence(WrapPlain(x)) == x
  {
    var b := x + Close;
    assert WrapPlain(x) == PlainOpen + b;
    assert !StartsWith(PlainOpen + b, LatexOpen) by { assert (PlainOpen + b)[3] == '\n'; }
    LeadingOf(PlainOpen, b);
    TrailingOf(x, Close);
  }

  /** A pattern put in front of a text is found and removed by the
      leading replacement. */
  lemma LeadingOf(p: string, x: string)
    ensures StartsWith(p + x, p) && StripLeading(p + x, p) == x
  {
    assert (p + x)[..|p|] == p;
    assert (p + x)[|p|..] == x;
  }

  /** A pattern put after a text is found and removed by the trailing
      replacement. */
  lemma TrailingOf(x: string, p: string)
    ensures EndsWith(x + p, p) && StripTrailing(x + p, p) == x
  {
    assert (x + p)[|x|..] == p;
    assert (x + p)[..|x|] == x;
  }

  /** The side condition of `CleanTaggedRoundTrip` is needed: a tagged fence
      around a body that opens with an untagged fence loses both. */
  lemma TaggedBodyOpeningWithFence()
    ensures CleanFence(WrapTagged("```\nfoo")) == "foo"
  {
    var b := "foo" + Close;
    var a := PlainOpen + b;
    assert WrapTagged("```\nfoo") == LatexOpen + a;
    LeadingOf(LatexOpen, a);
    LeadingOf(PlainOpen, b);
    TrailingOf("foo", Close);
  }

  /** Clean-up is not idempotent: a second pass can strip a further fence. */
  lemma NotIdempotent()
    ensures CleanFence("```latex\n```\nfoo\n```\n```") == "foo\n```"
    ensures CleanFence("foo\n```") == "foo"
  {
    var c := "foo" + Close;
    var b := c + Close;
    var a := PlainOpen + b;
    assert "```latex\n```\nfoo\n```\n```" == LatexOpen + a;
    LeadingOf(LatexOpen, a);
    LeadingOf(PlainOpen, b);
    TrailingOf(c, Close);
    assert c == "foo\n```";
    assert !StartsWith(c, LatexOpen) && !StartsWith(c, PlainOpen) by { assert c[0] == 'f'; }
    TrailingOf("foo", Close);
  }

  /** A leading fence with any other tag survives: the result is a prefix
      of the input that still opens with three backticks. */
  lemma {:induction false} OtherTagKept(s: string)
    requires StartsWith(s, Ticks)
    requires !StartsWith(s, LatexOpen) && !StartsWith(s, PlainOpen)
    ensures StartsWith(CleanFence(s), Ticks)
    ensures CleanFence(s) == s[..|CleanFence(s)|]
  {
    var r := CleanFence(s);
    assert StripLeading(StripLeading(s, LatexOpen), PlainOpen) == s;
    if EndsWith(s, Close) {
      assert r == s[..|s| - |Close|];
      assert s[|s| - 4] == '\n';
      assert s[..3] == Ticks;
      assert |s| >= 8 by {
        assert s[3] != '\n' by {
          if |s| >= 4 { assert s[..4] != PlainOpen; }
        }
      }
      assert r[..3] == s[..3];
    }
  }

  /** Input that ends in a newline loses nothing at its end: the trailing
      pattern is anchored at the very end, so a closing fence followed by a
      newline stays in place. */
  lemma {:induction false} NewlineEndKept(s: string)
    requires EndsWith(s, "\n")
    ensures CleanFence(s) == s[|s| - |CleanFence(s)|..]
  {
    var b := StripLeading(StripLeading(s, LatexOpen), PlainOpen);
    assert b == s[|s| - |b|..];
    assert !EndsWith(b, Close) by {
      if |b| > 0 { assert b[|b| - 1] == s[|s| - 1] == '\n'; }
    }
  }

  /** Text that opens with no fence and ends in a fenced newline comes
      back unchanged. */
  lemma TrailingFenceWithNewlineUnchanged(s: string)
    requires !StartsWith(s, Ticks) && EndsWith(s, "\n```\n")
    ensures CleanFence(s) == s
  {
    assert LatexOpen[..3] == Ticks && PlainOpen[..3] == Ticks;
    assert !EndsWith(s, Close) by {
      assert s[|s| - 1] == '\n';
    }
  }
}
