/** The clean-up `parse_contact` applies to the language model's reply
    before decoding it as JSON: strip it, and when it opens with a code
    fence drop the fence line and everything from the last closing fence. */
module ReplyCleanup {
  import opened Wrappers
  import opened Text

  const Fence: string := "```"

  /** `split("\n", 1)[1]` on a reply with no newline raises `IndexError`. */
  datatype CleanError = NoLineAfterFence

  /** The index of the first `c` in `s` at or after `i`, if any. */
  function IndexOf(s: string, c: char, i: nat): (r: Option<nat>)
    requires i <= |s|
    ensures r.Some? ==> i <= r.value < |s| && s[r.value] == c
    ensures forall j :: i <= j < |s| && (r.None? || j < r.value) ==> s[j] != c
    decreases |s| - i
  {
    if i == |s| then None
    else if s[i] == c then Some(i)
    else IndexOf(s, c, i + 1)
  }

  predicate FenceAt(s: string, j: int) {
    0 <= j && j + 3 <= |s| && s[j..j + 3] == Fence
  }

  /** The start of the last fence that begins before `n`, if any. */
  function LastFence(s: string, n: nat): (r: Option<nat>)
    ensures r.Some? ==> r.value < n && FenceAt(s, r.value)
    ensures forall j :: (if r.Some? then r.value < j else 0 <= j) && j < n ==> !FenceAt(s, j)
  {
    if n == 0 then None
    else if FenceAt(s, n - 1) then Some(n - 1)
    else LastFence(s, n - 1)
  }

  /** `s.rsplit("```", 1)[0]`: everything before the last fence, or all of
      `s` when it holds none. */
  function BeforeLastFence(s: string): (r: string)
    ensures |r| <= |s| && r == s[..|r|]
    ensures (r == s && forall j :: 0 <= j < |s| ==> !FenceAt(s, j))
      || (FenceAt(s, |r|) && forall j :: |r| < j < |s| ==> !FenceAt(s, j))
  {
    match LastFence(s, |s|)
    case Some(j) => s[..j]
    case None => s
  }

  /** The reply text handed to `json.loads`. */
  function CleanReply(reply: string): (r: Result<string, CleanError>)
    ensures r.Err? <==> StartsWith(Strip(reply), Fence) && '\n' !in Strip(reply)
  {
    var t := Strip(reply);
    if !StartsWith(t, Fence) then Ok(t)
    else match IndexOf(t, '\n', 0)
      case None => Err(NoLineAfterFence)
      case Some(nl) => Ok(Strip(BeforeLastFence(t[nl + 1..])))
  }

  /** Without an opening fence the reply is only stripped. */
  lemma CleanUnfenced(reply: string)
    requires !StartsWith(Strip(reply), Fence)
    ensures CleanReply(reply) == Ok(Strip(reply))
  {
  }

  /** A string with no whitespace at either end is its own `strip()`. */
  lemma {:induction false} StripUnpadded(s: string)
    requires s != [] && !IsSpace(s[0]) && !IsSpace(s[|s| - 1])
    ensures Strip(s) == s
  {
    assert TrimStart(s) == s;
  }

  /** The first newline of a fenced reply ends its opening fence line. */
  lemma FenceLineEnd(tag: string, rest: string)
    requires '\n' !in tag
    ensures IndexOf(Fence + tag + "\n" + rest, '\n', 0) == Some(|Fence + tag|)
  {
    var reply := Fence + tag + "\n" + rest;
    var nl := |Fence + tag|;
    assert reply[nl] == '\n';
    forall j | 0 <= j < nl
      ensures reply[j] != '\n'
    {
      if j >= 3 { assert reply[j] == tag[j - 3]; }
    }
  }

  /** Cutting at the last fence drops exactly the closing fence. */
  lemma ClosingFence(body: string)
    ensures BeforeLastFence(body + "\n" + Fence) == body + "\n"
  {
    var rest := body + "\n" + Fence;
    assert rest[|rest| - 3..] == Fence;
    var n := |rest|;
    assert LastFence(rest, n - 2) == Some(n - 3);
    assert !FenceAt(rest, n - 2) && LastFence(rest, n - 1) == Some(n - 3);
    assert !FenceAt(rest, n - 1) && LastFence(rest, n) == Some(n - 3);
  }

  /** A fenced reply, whatever language tag follows the opening fence and
      whatever the body holds (fences included), cleans to the stripped body. */
  lemma CleanFenced(tag: string, body: string)
    requires '\n' !in tag
    ensures CleanReply(Fence + tag + "\n" + body + "\n" + Fence) == Ok(Strip(body))
  {
    var rest := body + "\n" + Fence;
    var reply := Fence + tag + "\n" + rest;
    assert reply == Fence + tag + "\n" + body + "\n" + Fence;
    assert Strip(reply) == reply by {
      assert reply[0] == '`' && reply[|reply| - 1] == '`';
      StripUnpadded(reply);
    }
    assert StartsWith(reply, Fence) by {
      assert reply[..3] == Fence;
    }
    FenceLineEnd(tag, rest);
    var nl := |Fence + tag|;
    assert reply[nl + 1..] == rest;
    ClosingFence(body);
    StripAppendSpace(body, '\n');
  }
}
