// The console chat loop (llm-local/run_mistral.py). The lines typed at the
// prompt are a sequence; running out of them is `input()` raising
// EOFError. The text-generation pipeline is a parameter that maps a prompt
// to its list of `generated_text` values. Python's `str.lower` is modelled
// on ASCII letters only.

module Repl {

  /** The characters Python's `str.isspace` accepts, which `str.strip()` removes. */
  predicate IsPySpace(c: char)
  {
    c == ' ' || ('\t' <= c <= '\r') || ('\U{001C}' <= c <= '\U{001F}') || c == '\U{0085}' || c == '\U{00A0}'
    || c == '\U{1680}' || ('\U{2000}' <= c <= '\U{200A}') || c == '\U{2028}' || c == '\U{2029}'
    || c == '\U{202F}' || c == '\U{205F}' || c == '\U{3000}'
  }

  function LStrip(s: string): (r: string)
    ensures |r| <= |s| && r == s[|s| - |r|..]
    ensures |r| > 0 ==> !IsPySpace(r[0])
    ensures forall i :: 0 <= i < |s| - |r| ==> IsPySpace(s[i])
    decreases |s|
  {
    if |s| > 0 && IsPySpace(s[0]) then LStrip(s[1..]) else s
  }

  function RStrip(s: string): (r: string)
    ensures |r| <= |s| && r == s[..|r|]
    ensures |r| > 0 ==> !IsPySpace(r[|r| - 1])
    ensures forall i :: |r| <= i < |s| ==> IsPySpace(s[i])
    decreases |s|
  {
    if |s| > 0 && IsPySpace(s[|s| - 1]) then RStrip(s[..|s| - 1]) else s
  }

  /** `s.strip()` */
  function Strip(s: string): (r: string)
    ensures |r| <= |s|
    ensures |r| > 0 ==> !IsPySpace(r[0]) && !IsPySpace(r[|r| - 1])
  {
    RStrip(LStrip(s))
  }

  /** `strip` keeps what lies between the surrounding white space, interior spaces included. */
  lemma {:induction false} StripKeepsInterior(a: string, m: string, b: string)
    requires forall i :: 0 <= i < |a| ==> IsPySpace(a[i])
    requires forall i :: 0 <= i < |b| ==> IsPySpace(b[i])
    requires |m| > 0 && !IsPySpace(m[0]) && !IsPySpace(m[|m| - 1])
    ensures Strip(a + m + b) == m
  {
    LStripSpaces(a, m + b);
    assert a + m + b == a + (m + b);
    RStripSpaces(m, b);
  }

  lemma {:induction false} LStripSpaces(a: string, rest: string)
    requires forall i :: 0 <= i < |a| ==> IsPySpace(a[i])
    requires |rest| > 0 && !IsPySpace(rest[0])
    ensures LStrip(a + rest) == rest
    decreases |a|
  {
    if |a| == 0 {
      assert a + rest == rest;
    } else {
      assert (a + rest)[1..] == a[1..] + rest;
      LStripSpaces(a[1..], rest);
    }
  }

  lemma {:induction false} RStripSpaces(rest: string, b: string)
    requires forall i :: 0 <= i < |b| ==> IsPySpace(b[i])
    requires |rest| > 0 && !IsPySpace(rest[|rest| - 1])
    ensures RStrip(rest + b) == rest
    decreases |b|
  {
    if |b| == 0 {
      assert rest + b == rest;
    } else {
      assert (rest + b)[..|rest + b| - 1] == rest + b[..|b| - 1];
      RStripSpaces(rest, b[..|b| - 1]);
    }
  }

  /** Python's `str.lower` on one ASCII letter; other characters are kept. */
  function LowerChar(c: char): (r: char)
    ensures 'A' <= c <= 'Z' ==> r as int == c as int + 32
    ensures !('A' <= c <= 'Z') ==> r == c
  {
    if 'A' <= c <= 'Z' then (c as int + 32) as char else c
  }

  function LowerAscii(s: string): (r: string)
    ensures |r| == |s|
    ensures forall i :: 0 <= i < |s| ==> r[i] == LowerChar(s[i])
    decreases |s|
  {
    if |s| == 0 then [] else [LowerChar(s[0])] + LowerAscii(s[1..])
  }

  /** `user_input.lower() == "sair"` */
  predicate IsSentinel(line: string)
  {
    LowerAscii(line) == "sair"
  }

  /** Only "sair" in any letter case ends the loop; trailing text or a space does not. */
  lemma SentinelExamples()
    ensures IsSentinel("sair") && IsSentinel("SAIR") && IsSentinel("Sair")
    ensures !IsSentinel("sair ") && !IsSentinel("sair!") && !IsSentinel("exit") && !IsSentinel("")
  {
    assert LowerAscii("SAIR") == "sair";
    assert LowerAscii("Sair") == "sair";
    assert |LowerAscii("sair ")| == 5;
    assert LowerAscii("exit")[0] == 'e';
  }

  /** `response[len(user_input):].strip()`: exactly `len(user_input)` characters go, whatever they are. */
  function Reply(userInput: string, generated: string): (r: string)
    ensures |generated| <= |userInput| ==> r == ""
    ensures |generated| > |userInput| ==> r == Strip(generated[|userInput|..])
  {
    Strip(if |generated| <= |userInput| then "" else generated[|userInput|..])
  }

  /** The dropped prefix is not compared with the input: the reply to "oi" from "xy ok" is "ok". */
  lemma PrefixNotChecked()
    ensures Reply("oi", "xy ok") == "ok"
  {
    assert "xy ok"[2..] == " ok";
    StripKeepsInterior(" ", "ok", "");
    assert " " + "ok" + "" == " ok";
  }

  /** How the loop ends: the sentinel, the end of input, or an empty result list (`[0]` raises IndexError). */
  datatype End = Quit | EndOfInput | NoResult

  /** The first line that ends the loop: a sentinel, or a prompt whose result list is empty. */
  function StopIndex(lines: seq<string>, pipe: string -> seq<string>): (k: nat)
    ensures k <= |lines|
    ensures forall j :: 0 <= j < k ==> !IsSentinel(lines[j]) && |pipe(lines[j])| > 0
    ensures k < |lines| ==> IsSentinel(lines[k]) || |pipe(lines[k])| == 0
    decreases |lines|
  {
    if |lines| == 0 || IsSentinel(lines[0]) || |pipe(lines[0])| == 0 then 0
    else
      assert forall j :: 1 <= j < |lines| ==> lines[j] == lines[1..][j - 1];
      1 + StopIndex(lines[1..], pipe)
  }

  /**
   * `main`'s read loop, after the model is loaded. It returns the prompts
   * passed to the pipeline, in order, the replies it prints and how it ends.
   */
  method ChatLoop(lines: seq<string>, pipe: string -> seq<string>) returns (prompts: seq<string>, replies: seq<string>, end: End)
    ensures var k := StopIndex(lines, pipe);
      |replies| == k
      && (forall j :: 0 <= j < k ==> replies[j] == Reply(lines[j], pipe(lines[j])[0]))
      && (k == |lines| ==> end == EndOfInput && prompts == lines)
      && (k < |lines| && IsSentinel(lines[k]) ==> end == Quit && prompts == lines[..k])
      && (k < |lines| && !IsSentinel(lines[k]) ==> end == NoResult && prompts == lines[..k + 1])
  {
    ghost var k := StopIndex(lines, pipe);
    prompts, replies := [], [];
    var i := 0;
    while true
      invariant 0 <= i <= k
      invariant prompts == lines[..i] && |replies| == i
      invariant RepliesTo(lines, pipe, replies)
      decreases |lines| - i
    {
      if i == |lines| {
        assert k == i;
        assert lines[..i] == lines;
        return prompts, replies, EndOfInput;
      }
      var userInput := lines[i];
      if IsSentinel(userInput) {
        assert k == i;
        return prompts, replies, Quit;
      }
      prompts := prompts + [userInput];
      PrefixSnoc(lines, i);
      var results := pipe(userInput);
      if |results| == 0 {
        assert k == i;
        return prompts, replies, NoResult;
      }
      assert i < k;
      RepliesSnoc(lines, pipe, replies, i);
      replies := replies + [Reply(userInput, results[0])];
      i := i + 1;
    }
  }

  /** The replies to the first `i` lines. */
  predicate RepliesTo(lines: seq<string>, pipe: string -> seq<string>, replies: seq<string>)
  {
    |replies| <= |lines|
    && forall j :: 0 <= j < |replies| ==> |pipe(lines[j])| > 0 && replies[j] == Reply(lines[j], pipe(lines[j])[0])
  }

  lemma RepliesSnoc(lines: seq<string>, pipe: string -> seq<string>, replies: seq<string>, i: nat)
    requires |replies| == i < |lines| && |pipe(lines[i])| > 0
    requires RepliesTo(lines, pipe, replies)
    ensures RepliesTo(lines, pipe, replies + [Reply(lines[i], pipe(lines[i])[0])])
  {
  }

  lemma PrefixSnoc(xs: seq<string>, i: nat)
    requires i < |xs|
    ensures xs[..i + 1] == xs[..i] + [xs[i]]
  {
  }

  /** The pipeline is asked once per line before the first sentinel and never after it. */
  lemma NoPromptAfterSentinel(lines: seq<string>, pipe: string -> seq<string>, s: nat)
    requires s < |lines| && IsSentinel(lines[s])
    requires forall j :: 0 <= j < s ==> !IsSentinel(lines[j]) && |pipe(lines[j])| > 0
    ensures StopIndex(lines, pipe) == s
  {
  }
}
