/**
 * PDFGameFactory._extract_json: two left-to-right regex deletions
 * (first "```json" followed by any whitespace, then "```" followed by any
 * whitespace), strip(), and a single json.loads attempt that falls back to {}.
 */
module Fences {
  import opened Wrappers
  import opened Collections
  import opened JsonValue
  import opened Text

  const Fence: string := "```"
  const JsonFence: string := "```json"

  /** s begins with "```", tested character by character. */
  predicate OpensFence(s: string)
    ensures OpensFence(s) <==> StartsWith(s, Fence)
  {
    |s| >= 3 && s[0] == '`' && s[1] == '`' && s[2] == '`'
  }

  /** s begins with "```json", tested character by character. */
  predicate OpensJsonFence(s: string)
    ensures OpensJsonFence(s) <==> StartsWith(s, JsonFence)
  {
    |s| >= 7 && s[0] == '`' && s[1] == '`' && s[2] == '`' && s[3] == 'j' && s[4] == 's' && s[5] == 'o' && s[6] == 'n'
  }

  /** re.sub(r'```json\s*', '', s): scan left to right, delete each match, resume after it. */
  function DropJsonFences(s: string): (r: string)
    ensures |r| <= |s|
    decreases |s|
  {
    if OpensJsonFence(s) then DropJsonFences(TrimStart(s[|JsonFence|..]))
    else if s == [] then []
    else [s[0]] + DropJsonFences(s[1..])
  }

  /** re.sub(r'```\s*', '', s). */
  function DropFences(s: string): (r: string)
    ensures |r| <= |s|
    decreases |s|
  {
    if OpensFence(s) then DropFences(TrimStart(s[|Fence|..]))
    else if s == [] then []
    else [s[0]] + DropFences(s[1..])
  }

  /** The text handed to json.loads: no "```" is left in it and its ends are clean. */
  function StripFences(text: string): (r: string)
    ensures !Contains(r, Fence)
    ensures r == [] || (!IsSpace(r[0]) && !IsSpace(r[|r| - 1]))
  {
    DropFencesLeavesNoFence(DropJsonFences(text));
    StripLacks(DropFences(DropJsonFences(text)), Fence);
    Strip(DropFences(DropJsonFences(text)))
  }

  /** _extract_json: a failed decode yields the empty dict. */
  function ExtractJson(decode: Decoder, text: string): (r: Object)
    ensures decode(StripFences(text)) == None ==> r == map[]
    ensures decode(StripFences(text)).Some? ==> r == decode(StripFences(text)).value
  {
    match decode(StripFences(text))
    case Some(d) => d
    case None => map[]
  }

  /** The second pass only starts with a backtick when its input does. */
  lemma DropFencesFirstChar(s: string)
    requires DropFences(s) != [] && DropFences(s)[0] == '`'
    ensures s != [] && s[0] == '`'
  {
    if !OpensFence(s) && s != [] {
      assert DropFences(s)[0] == s[0];
    }
  }

  /** A first character that does not open a fence is copied by the second pass. */
  lemma DropFencesCopies(s: string)
    requires s != [] && !OpensFence(s)
    ensures DropFences(s) == [s[0]] + DropFences(s[1..])
  {
  }

  /** A first character that does not open a "```json" is copied by the first pass. */
  lemma DropJsonFencesCopies(s: string)
    requires s != [] && !OpensJsonFence(s)
    ensures DropJsonFences(s) == [s[0]] + DropJsonFences(s[1..])
  {
  }

  /** After a backtick that does not open a fence, the second pass does not produce "``". */
  lemma NoDoubleAfterLoneBacktick(s: string)
    requires s != [] && s[0] == '`' && !OpensFence(s)
    ensures var d := DropFences(s[1..]); !(|d| >= 2 && d[0] == '`' && d[1] == '`')
  {
    var t := s[1..];
    var d := DropFences(t);
    if |d| >= 2 && d[0] == '`' {
      DropFencesFirstChar(t);
      assert |t| < 2 || t[1] == s[2];
      assert d == [t[0]] + DropFences(t[1..]) by {
        DropFencesCopies(t);
      }
    }
  }

  /** Copying a character that does not open a fence cannot complete a "```". */
  lemma CopyKeepsNoFence(s: string)
    requires s != [] && !OpensFence(s)
    requires !Contains(DropFences(s[1..]), Fence)
    ensures !Contains(DropFences(s), Fence)
  {
    var rest := DropFences(s[1..]);
    var r := DropFences(s);
    assert r == [s[0]] + rest by {
      DropFencesCopies(s);
    }
    assert r[1..] == rest;
    assert !OpensFence(r) by {
      if s[0] == '`' {
        NoDoubleAfterLoneBacktick(s);
      }
    }
  }

  /** No "```" survives the second deletion pass. */
  lemma {:induction false} DropFencesLeavesNoFence(s: string)
    ensures !Contains(DropFences(s), Fence)
    decreases |s|
  {
    if OpensFence(s) {
      DropFencesLeavesNoFence(TrimStart(s[3..]));
    } else if s != [] {
      DropFencesLeavesNoFence(s[1..]);
      CopyKeepsNoFence(s);
    }
  }

  /** Without any "```", the first pass has nothing to delete. */
  lemma {:induction false} DropJsonFencesIdentity(s: string)
    requires !Contains(s, Fence)
    ensures DropJsonFences(s) == s
    decreases |s|
  {
    if s != [] {
      assert !OpensFence(s);
      DropJsonFencesIdentity(s[1..]);
      ConsSplit(s, []);
    }
  }

  /** Without any "```", the second pass has nothing to delete. */
  lemma {:induction false} DropFencesIdentity(s: string)
    requires !Contains(s, Fence)
    ensures DropFences(s) == s
    decreases |s|
  {
    if s != [] {
      DropFencesIdentity(s[1..]);
      ConsSplit(s, []);
    }
  }

  /** A character other than a backtick is copied by the first pass. */
  lemma DropJsonFencesCons(c: char, t: string)
    requires c != '`'
    ensures DropJsonFences([c] + t) == [c] + DropJsonFences(t)
  {
    var s := [c] + t;
    assert s[0] == c && s[1..] == t;
  }

  /** One more backtick-free character in front of a prefix that passes through the first pass. */
  lemma DropJsonFencesPrefixStep(c: char, t: string, xs: string, d: string)
    requires c != '`'
    requires DropJsonFences(t) == xs + d
    ensures DropJsonFences([c] + t) == [c] + xs + d
  {
    DropJsonFencesCons(c, t);
  }

  /** A backtick-free prefix passes through the first pass untouched. */
  lemma {:induction false} DropJsonFencesPrefix(x: string, y: string)
    requires '`' !in x
    ensures DropJsonFences(x + y) == x + DropJsonFences(y)
    decreases |x|
  {
    if x == [] {
      assert x + y == y;
    } else {
      DropJsonFencesPrefix(x[1..], y);
      DropJsonFencesPrefixStep(x[0], x[1..] + y, x[1..], DropJsonFences(y));
      ConsSplit(x, y);
    }
  }

  /** A character other than a backtick is copied by the second pass. */
  lemma DropFencesCons(c: char, t: string)
    requires c != '`'
    ensures DropFences([c] + t) == [c] + DropFences(t)
  {
    var s := [c] + t;
    assert s[0] == c && s[1..] == t;
  }

  /** One more backtick-free character in front of a prefix that passes through the second pass. */
  lemma DropFencesPrefixStep(c: char, t: string, xs: string, d: string)
    requires c != '`'
    requires DropFences(t) == xs + d
    ensures DropFences([c] + t) == [c] + xs + d
  {
    DropFencesCons(c, t);
  }

  /** A backtick-free prefix passes through the second pass untouched. */
  lemma {:induction false} DropFencesPrefix(x: string, y: string)
    requires '`' !in x
    ensures DropFences(x + y) == x + DropFences(y)
    decreases |x|
  {
    if x == [] {
      assert x + y == y;
    } else {
      DropFencesPrefix(x[1..], y);
      DropFencesPrefixStep(x[0], x[1..] + y, x[1..], DropFences(y));
      ConsSplit(x, y);
    }
  }

  /** A string with no backtick contains no fence. */
  lemma {:induction false} NoBacktickNoFence(s: string)
    requires '`' !in s
    ensures !Contains(s, Fence)
    decreases |s|
  {
    if s != [] {
      assert s[0] != '`';
      NoBacktickNoFence(s[1..]);
    }
  }

  /** Stripping the fences twice is the same as stripping them once. */
  lemma StripFencesIdempotent(text: string)
    ensures StripFences(StripFences(text)) == StripFences(text)
  {
    var t := StripFences(text);
    DropJsonFencesIdentity(t);
    DropFencesIdentity(t);
    StripClean(t);
  }

  /** With no backtick in the input, the only change is strip(). */
  lemma NoBacktickOnlyStrips(text: string)
    requires '`' !in text
    ensures StripFences(text) == Strip(text)
  {
    NoBacktickNoFence(text);
    DropJsonFencesIdentity(text);
    DropFencesIdentity(text);
  }

  /** A lone closing fence is deleted by the second pass. */
  lemma DropFencesOfFence()
    ensures DropFences(Fence) == []
  {
    assert StartsWith(Fence, Fence);
    assert Fence[3..] == [];
  }

  /** A lone closing fence is not a "```json" and survives the first pass. */
  lemma DropJsonFencesOfFence()
    ensures DropJsonFences(Fence) == Fence
  {
    var f := Fence;
    assert f[1..][1..] == f[2..];
    assert f[2..][1..] == [];
    assert f == [f[0]] + ([f[1]] + ([f[2]] + []));
  }

  /** Appending a closing fence to a text without "```" creates no "```json". */
  lemma NoJsonFenceBeforeFence(x: string)
    requires !Contains(x, Fence)
    ensures !Contains(x + Fence, JsonFence)
  {
    var s := x + Fence;
    ContainsAt(x, Fence);
    ContainsAt(s, JsonFence);
    forall k | 0 <= k <= |s| - |JsonFence|
      ensures !StartsWith(s[k..], JsonFence)
    {
      assert s[k..][..3] == x[k..][..3];
      assert !StartsWith(x[k..], Fence);
      assert s[k..][..3] == s[k..][..7][..3];
    }
  }

  /** Without any "```json", the first pass has nothing to delete. */
  lemma {:induction false} DropJsonFencesNoJson(s: string)
    requires !Contains(s, JsonFence)
    ensures DropJsonFences(s) == s
    decreases |s|
  {
    if s != [] {
      DropJsonFencesNoJson(s[1..]);
      ConsSplit(s, []);
    }
  }

  /** After a body without "```": the first pass keeps the closing "```". */
  lemma ClosingFenceKept(body: string)
    requires !Contains(body, Fence)
    ensures DropJsonFences(TrimStart(body + Fence)) == TrimStart(body) + Fence
  {
    TrimStartAppend(body, Fence);
    TrimStartLacks(body, Fence);
    NoJsonFenceBeforeFence(TrimStart(body));
    DropJsonFencesNoJson(TrimStart(body) + Fence);
  }

  /** A body that runs into the closing fence as an opening "```" is one or two backticks. */
  lemma BackticksIntoFence(body: string)
    requires body != [] && !Contains(body, Fence) && OpensFence(body + Fence)
    ensures body == "`" || body == "``"
  {
    var s := body + Fence;
    assert !OpensFence(body);
    assert s[0] == body[0] && (|body| >= 2 ==> s[1] == body[1]);
  }

  /** One or two backticks pass through the second pass. */
  lemma ShortBackticksKept()
    ensures DropFences("`") == "`"
    ensures DropFences("``") == "``"
  {
    var one: string := "`";
    var two: string := "``";
    assert DropFences([]) == [];
    assert !OpensFence(one) && one[1..] == [];
    assert DropFences(one) == [one[0]] + DropFences([]);
    assert !OpensFence(two) && two[1..] == one;
    assert DropFences(two) == [two[0]] + DropFences(one);
  }

  /** One or two backticks followed by a fence lose only the fence in the second pass. */
  lemma BackticksThenFence(ticks: string)
    requires ticks == "`" || ticks == "``"
    ensures DropFences(ticks + Fence) == ticks
  {
    var s := ticks + Fence;
    assert OpensFence(s) && s[3..] == ticks;
    assert !IsSpace(ticks[0]);
    assert TrimStart(ticks) == ticks;
    ShortBackticksKept();
  }

  /**
   * The second pass deletes the closing "```" after a body without "```", also
   * when the body ends in one or two backticks that run into the fence.
   */
  lemma {:induction false} ClosingFenceDropped(body: string)
    requires !Contains(body, Fence)
    ensures DropFences(body + Fence) == body
    decreases |body|
  {
    var s := body + Fence;
    if body == [] {
      AppendNil(body);
      DropFencesOfFence();
    } else if OpensFence(s) {
      BackticksIntoFence(body);
      BackticksThenFence(body);
    } else {
      ClosingFenceDroppedStep(body);
    }
  }

  /** The step of ClosingFenceDropped: a first character that opens nothing is copied. */
  lemma {:induction false} ClosingFenceDroppedStep(body: string)
    requires body != [] && !Contains(body, Fence) && !OpensFence(body + Fence)
    ensures DropFences(body + Fence) == body
    decreases |body|, 0
  {
    var s := body + Fence;
    DropFencesCopies(s);
    ConsSplit(body, Fence);
    ClosingFenceDropped(body[1..]);
    ConsSplit(body, []);
  }

  /** StripFences taken one pass at a time. */
  lemma StripFencesByPasses(text: string, afterJson: string, afterBare: string)
    requires DropJsonFences(text) == afterJson
    requires DropFences(afterJson) == afterBare
    ensures StripFences(text) == Strip(afterBare)
  {
  }

  /** An opening "```json" is deleted together with the whitespace after it. */
  lemma JsonOpeningDropped(rest: string)
    ensures DropJsonFences(JsonFence + rest) == DropJsonFences(TrimStart(rest))
  {
    AppendParts(JsonFence, rest);
  }

  /** An opening "```" is deleted together with the whitespace after it. */
  lemma BareOpeningDropped(rest: string)
    ensures DropFences(Fence + rest) == DropFences(TrimStart(rest))
  {
    AppendParts(Fence, rest);
  }

  /** The first pass turns a ```json block whose body has no "```" into the trimmed body and the closing fence. */
  lemma JsonBlockFirstPass(body: string)
    requires !Contains(body, Fence)
    ensures DropJsonFences(JsonFence + body + Fence) == TrimStart(body) + Fence
  {
    Assoc(JsonFence, body, Fence);
    JsonOpeningDropped(body + Fence);
    ClosingFenceKept(body);
  }

  /** A ```json fenced block whose body has no "```" reaches json.loads as its stripped body. */
  lemma JsonFencedBlock(body: string)
    requires !Contains(body, Fence)
    ensures StripFences(JsonFence + body + Fence) == Strip(body)
  {
    var b := TrimStart(body);
    JsonBlockFirstPass(body);
    TrimStartLacks(body, Fence);
    ClosingFenceDropped(b);
    StripFencesByPasses(JsonFence + body + Fence, b + Fence, b);
    StripAfterTrimStart(body);
  }

  /** A fenced block whose body does not begin with "json" does not open with "```json". */
  lemma NoJsonOpening(body: string)
    requires !StartsWith(body, "json")
    ensures !OpensJsonFence(Fence + body + Fence)
  {
    var s := Fence + body + Fence;
    assert forall i :: 0 <= i < |body| ==> s[3 + i] == body[i];
    assert s[3 + |body|] == '`';
    assert |body| >= 4 ==> body[..4] == [body[0], body[1], body[2], body[3]];
  }

  /** A backtick that does not open a "```json" is copied by the first pass. */
  lemma DropJsonFencesBacktick(t: string)
    requires !OpensJsonFence(['`'] + t)
    ensures DropJsonFences(['`'] + t) == ['`'] + DropJsonFences(t)
  {
    var s := ['`'] + t;
    assert s[0] == '`' && s[1..] == t;
  }

  /** None of the three backticks opening a bare fenced block starts a "```json". */
  lemma LoneBackticks(body: string)
    requires body == [] || body[0] != '`'
    requires !StartsWith(body, "json")
    ensures var t := body + Fence;
      && Fence + body + Fence == ['`'] + (['`'] + (['`'] + t))
      && !OpensJsonFence(['`'] + (['`'] + (['`'] + t)))
      && !OpensJsonFence(['`'] + (['`'] + t))
      && !OpensJsonFence(['`'] + t)
  {
    var t := body + Fence;
    Assoc(Fence, body, Fence);
    assert Fence + t == ['`'] + (['`'] + (['`'] + t));
    NoJsonOpening(body);
    assert t[0] != '`' || |t| < 4 by {
      if body != [] { assert t[0] == body[0]; }
    }
  }

  /**
   * A bare fenced block holds no "```json" when its body has no "```", does not
   * begin with a backtick and does not begin with "json".
   */
  lemma BareOpeningKept(body: string)
    requires !Contains(body, Fence)
    requires body == [] || body[0] != '`'
    requires !StartsWith(body, "json")
    ensures DropJsonFences(Fence + body + Fence) == Fence + body + Fence
  {
    var t := body + Fence;
    assert DropJsonFences(t) == t by {
      NoJsonFenceBeforeFence(body);
      DropJsonFencesNoJson(t);
    }
    LoneBackticks(body);
    DropJsonFencesBacktick(t);
    DropJsonFencesBacktick(['`'] + t);
    DropJsonFencesBacktick(['`'] + (['`'] + t));
  }

  /** The second pass deletes an opening "```" and the whitespace after it, up to a closing "```". */
  lemma BareOpeningThenBody(body: string)
    ensures DropFences(Fence + body + Fence) == DropFences(TrimStart(body) + Fence)
  {
    Assoc(Fence, body, Fence);
    BareOpeningDropped(body + Fence);
    TrimStartAppend(body, Fence);
  }

  /** The second pass deletes both fences of a block whose body has no "```", and the whitespace after the first. */
  lemma BareBlockSecondPass(body: string)
    requires !Contains(body, Fence)
    ensures DropFences(Fence + body + Fence) == TrimStart(body)
  {
    BareOpeningThenBody(body);
    TrimStartLacks(body, Fence);
    ClosingFenceDropped(TrimStart(body));
  }

  /** A bare ``` fenced block whose body has no "```" and begins with neither a backtick nor the word json. */
  lemma BareFencedBlock(body: string)
    requires !Contains(body, Fence)
    requires body == [] || body[0] != '`'
    requires !StartsWith(body, "json")
    ensures StripFences(Fence + body + Fence) == Strip(body)
  {
    var s := Fence + body + Fence;
    BareOpeningKept(body);
    BareBlockSecondPass(body);
    StripFencesByPasses(s, s, TrimStart(body));
    StripAfterTrimStart(body);
  }

  /**
   * A language tag other than json (```python, say) loses its backticks but the
   * tag word itself is left at the front of the text handed to json.loads.
   */
  lemma OtherTagKept(tag: string, body: string)
    requires tag != [] && (forall i :: 0 <= i < |tag| ==> !IsSpace(tag[i]))
    requires tag[0] != '`' && !StartsWith(tag + body, "json")
    requires !Contains(tag + body, Fence)
    ensures StripFences(Fence + tag + body + Fence) == Strip(tag + body)
    ensures StartsWith(StripFences(Fence + tag + body + Fence), tag)
  {
    Assoc(Fence, tag, body);
    BareFencedBlock(tag + body);
    StripKeepsWord(tag, body);
  }

  /** Extracting from text that differs only in fencing gives the same dict. */
  lemma ExtractJsonSameText(decode: Decoder, a: string, b: string)
    requires StripFences(a) == StripFences(b)
    ensures ExtractJson(decode, a) == ExtractJson(decode, b)
  {
  }

  /**
   * Wrapping a JSON text without "```" (inline `code` spans are fine) in a ```json
   * block does not change what is extracted.
   */
  lemma ExtractJsonFenced(decode: Decoder, body: string)
    requires !Contains(body, Fence)
    ensures ExtractJson(decode, JsonFence + body + Fence) == ExtractJson(decode, body)
  {
    JsonFencedBlock(body);
    DropJsonFencesIdentity(body);
    DropFencesIdentity(body);
    StripFencesByPasses(body, body, body);
    ExtractJsonSameText(decode, JsonFence + body + Fence, body);
  }
}
