/** The two pieces of Go's standard formatting library that the cache code relies on:
    `fmt.Sprintf` restricted to `%s` and `%%` over string operands (the only verbs the
    core's format strings use), and `strings.Join`. */
module Fmt {

  /** True when `s` holds no `%`, so formatting copies it verbatim. */
  predicate Plain(s: string) {
    forall i :: 0 <= i < |s| ==> s[i] != '%'
  }

  /** The index of the first `%` in `s`, or `|s|` when there is none. */
  function FirstPercent(s: string): (k: nat)
    ensures k <= |s|
    ensures k < |s| ==> s[k] == '%'
  {
    if |s| == 0 || s[0] == '%' then 0 else 1 + FirstPercent(s[1..])
  }

  /** `fmt.Sprintf(format, args...)` for string operands: text up to the next `%` is
      copied, `%s` takes the next operand, `%%` is a literal percent sign, a `%s` without
      an operand renders as `%!s(MISSING)`, and unused operands are listed after the text
      in an `%!(EXTRA ...)` suffix. Any other `%` is copied as it is. */
  function Sprintf(format: string, args: seq<string>): string
    decreases |format|
  {
    var k := FirstPercent(format);
    if k == |format| then format + Extra(args)
    else if k + 1 < |format| && format[k + 1] == 's' then
      if |args| == 0 then format[..k] + "%!s(MISSING)" + Sprintf(format[k + 2..], args)
      else format[..k] + args[0] + Sprintf(format[k + 2..], args[1..])
    else if k + 1 < |format| && format[k + 1] == '%' then
      format[..k] + "%" + Sprintf(format[k + 2..], args)
    else format[..k + 1] + Sprintf(format[k + 1..], args)
  }

  /** The suffix fmt appends for operands no verb consumed. */
  function Extra(args: seq<string>): string {
    if |args| == 0 then "" else "%!(EXTRA " + Join(Tagged(args), ", ") + ")"
  }

  function Tagged(args: seq<string>): (r: seq<string>)
    ensures |r| == |args|
    ensures forall i :: 0 <= i < |args| ==> r[i] == "string=" + args[i]
  {
    if |args| == 0 then [] else ["string=" + args[0]] + Tagged(args[1..])
  }

  /** `strings.Join(parts, sep)`. */
  function Join(parts: seq<string>, sep: string): string {
    if |parts| == 0 then ""
    else if |parts| == 1 then parts[0]
    else parts[0] + sep + Join(parts[1..], sep)
  }

  /** Verb-free text ahead of a `%` is skipped whole. */
  lemma {:induction false} FirstPercentAfter(pre: string, rest: string)
    requires Plain(pre)
    ensures FirstPercent(pre + rest) == |pre| + FirstPercent(rest)
    decreases |pre|
  {
    if |pre| == 0 {
      assert pre + rest == rest;
    } else {
      var t := pre[1..];
      assert Plain(t) by { assert forall i :: 0 <= i < |t| ==> t[i] == pre[i + 1]; }
      assert (pre + rest)[0] == pre[0] && (pre + rest)[1..] == t + rest;
      FirstPercentAfter(t, rest);
    }
  }

  /** Text without verbs is copied through unchanged, followed by the operands left over. */
  lemma SprintfPlain(s: string, args: seq<string>)
    requires Plain(s)
    ensures Sprintf(s, args) == s + Extra(args)
  {
    FirstPercentAfter(s, "");
    assert s + "" == s;
  }

  /** The first `%s` after verb-free text is replaced by the first operand. */
  lemma SprintfVerb(pre: string, rest: string, a: string, args: seq<string>)
    requires Plain(pre)
    ensures Sprintf(pre + "%s" + rest, [a] + args) == pre + a + Sprintf(rest, args)
  {
    var f := pre + "%s" + rest;
    FirstPercentAfter(pre, "%s" + rest);
    assert f == pre + ("%s" + rest);
    assert f[..|pre|] == pre && f[|pre| + 1] == 's' && f[|pre| + 2..] == rest;
    assert ([a] + args)[0] == a && ([a] + args)[1..] == args;
  }

  /** A format `f` with one `%s` and one operand. */
  lemma Sprintf1(f: string, pre: string, post: string, a: string)
    requires Plain(pre) && Plain(post) && f == pre + "%s" + post
    ensures Sprintf(f, [a]) == pre + a + post
  {
    SprintfVerb(pre, post, a, []);
    SprintfPlain(post, []);
    assert [a] + [] == [a];
  }

  /** A format `f` with two `%s` verbs and two operands. */
  lemma Sprintf2(f: string, pre: string, mid: string, post: string, a: string, b: string)
    requires Plain(pre) && Plain(mid) && Plain(post) && f == pre + "%s" + mid + "%s" + post
    ensures Sprintf(f, [a, b]) == pre + a + mid + b + post
  {
    var rest := mid + "%s" + post;
    assert f == pre + "%s" + rest;
    assert [a, b] == [a] + [b];
    calc {
      Sprintf(pre + "%s" + rest, [a] + [b]);
      == { SprintfVerb(pre, rest, a, [b]); }
      pre + a + Sprintf(rest, [b]);
      == { Sprintf1(rest, mid, post, b); }
      pre + a + (mid + b + post);
    }
  }

  /** Joining one more part appends the separator and that part. */
  lemma {:induction false} JoinAppend(parts: seq<string>, x: string, sep: string)
    requires |parts| > 0
    ensures Join(parts + [x], sep) == Join(parts, sep) + sep + x
    decreases |parts|
  {
    if |parts| == 1 {
      assert parts + [x] == [parts[0], x];
      assert [parts[0], x][1..] == [x];
    } else {
      assert (parts + [x])[1..] == parts[1..] + [x];
      JoinAppend(parts[1..], x, sep);
    }
  }
}
