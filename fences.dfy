/**
 * Removal of Markdown code fences around the model's reply, before the
 * reply is parsed as JSON (main.py:162-168).
 */
module Fences {
  import opened Strings

  /** A code-fence marker. */
  const Fence: string := "```"
  /** A code-fence marker carrying the `json` language tag. */
  const JsonFence: string := "```json"

  /** Remove every fence marker (`s.replace("```", "")`). */
  function RemoveFences(s: string): string {
    ReplaceAll(s, Fence, "")
  }

  /**
   * The reply text handed to the JSON parser: the stripped reply; when it
   * opens with a tagged fence, every tagged marker and then every marker is
   * removed and the rest stripped; when it opens with a plain fence, every
   * marker is removed and the rest stripped.
   */
  function StripFences(reply: string): string {
    var t := Trim(reply);
    if StartsWith(t, JsonFence) then Trim(RemoveFences(ReplaceAll(t, JsonFence, "")))
    else if StartsWith(t, Fence) then Trim(RemoveFences(t))
    else t
  }

  /** Removal keeps a leading character that is not a backtick. */
  lemma FirstCharKept(s: string)
    requires s != [] && s[0] != '`'
    ensures RemoveFences(s) != [] && RemoveFences(s)[0] == s[0]
  {
    assert !StartsWith(s, Fence) by { assert Fence[0] == '`'; }
  }

  /** Removal cannot make a string start with two backticks when it did not. */
  lemma NoDoubleBacktickStart(s: string)
    requires !StartsWith(s, "``")
    ensures !StartsWith(RemoveFences(s), "``")
  {
    if s != [] {
      if |s| >= 3 { assert s[..2] == s[..3][..2]; }
      var y := RemoveFences(s[1..]);
      assert RemoveFences(s) == [s[0]] + y;
      if s[0] == '`' && |s| >= 2 {
        assert s[1] != '`' by { assert s[..2] == [s[0], s[1]]; }
        FirstCharKept(s[1..]);
        assert ([s[0]] + y)[1] == y[0];
      } else if s[0] == '`' {
        assert s[1..] == [] && y == [];
      }
    }
  }

  /** `p` occurs in `[c] + y` exactly when it starts there or occurs in `y`. */
  lemma ContainsCons(c: char, y: string, p: string)
    requires p != []
    ensures Contains([c] + y, p) <==> StartsWith([c] + y, p) || Contains(y, p)
  {
    assert ([c] + y)[1..] == y;
    if Contains(y, p) {
      assert |p| <= |[c] + y|;
    }
  }

  /**
   * After every marker is removed, no marker is left: a run of n backticks
   * becomes a run of n mod 3, and runs stay separated by the characters
   * that separated them.
   */
  lemma {:induction false} NoFenceAfterRemoval(s: string)
    ensures !Contains(RemoveFences(s), Fence)
    decreases |s|
  {
    if StartsWith(s, Fence) {
      assert RemoveFences(s) == RemoveFences(s[3..]);
      NoFenceAfterRemoval(s[3..]);
    } else if s != [] {
      var y := RemoveFences(s[1..]);
      assert RemoveFences(s) == [s[0]] + y;
      NoFenceAfterRemoval(s[1..]);
      ContainsCons(s[0], y, Fence);
      if s[0] == '`' {
        if |s| >= 3 { assert s[..3] == [s[0]] + s[1..][..2]; }
        NoDoubleBacktickStart(s[1..]);
        if |y| >= 2 { assert ([s[0]] + y)[..3][1..] == y[..2]; }
      } else {
        assert ([s[0]] + y)[0] == s[0];
      }
    }
  }

  /** Stripping a fenced reply leaves no fence marker anywhere in the text. */
  lemma StripFencesRemovesAll(reply: string)
    requires StartsWith(Trim(reply), Fence)
    ensures !Contains(StripFences(reply), Fence)
  {
    var t := Trim(reply);
    if StartsWith(t, JsonFence) {
      var u := RemoveFences(ReplaceAll(t, JsonFence, ""));
      NoFenceAfterRemoval(ReplaceAll(t, JsonFence, ""));
      TrimKeepsAbsence(u, Fence);
    } else {
      NoFenceAfterRemoval(t);
      TrimKeepsAbsence(RemoveFences(t), Fence);
    }
  }

  /** A tagged marker is in particular a marker. */
  lemma TaggedIsFence(t: string)
    ensures StartsWith(t, JsonFence) ==> StartsWith(t, Fence)
  {
    assert JsonFence[..3] == Fence;
    if |t| >= 7 {
      assert t[..3] == t[..7][..3];
    }
  }

  /** A reply that does not open with a fence is only stripped of whitespace. */
  lemma StripFencesUnfenced(reply: string)
    requires !StartsWith(Trim(reply), Fence)
    ensures StripFences(reply) == Trim(reply)
  {
    TaggedIsFence(Trim(reply));
  }

  /** The result never opens with a fence and never carries surrounding whitespace. */
  lemma StripFencesResult(reply: string)
    ensures !StartsWith(StripFences(reply), Fence)
    ensures Trim(StripFences(reply)) == StripFences(reply)
  {
    var t, r := Trim(reply), StripFences(reply);
    if StartsWith(t, Fence) {
      StripFencesRemovesAll(reply);
      if StartsWith(r, Fence) {
        StartsWithContains(r, Fence);
      }
      var u := if StartsWith(t, JsonFence) then RemoveFences(ReplaceAll(t, JsonFence, "")) else RemoveFences(t);
      assert r == Trim(u);
      TrimIdempotent(u);
    } else {
      StripFencesUnfenced(reply);
      TrimIdempotent(reply);
    }
  }

  /** Stripping twice is stripping once. */
  lemma StripFencesIdempotent(reply: string)
    ensures StripFences(StripFences(reply)) == StripFences(reply)
  {
    StripFencesResult(reply);
    StripFencesUnfenced(StripFences(reply));
  }

  /** A closing marker after a body without markers is removed and nothing else is. */
  lemma {:induction false} ClosingFenceRemoved(body: string)
    requires !Contains(body, Fence)
    ensures RemoveFences(body + Fence) == body
    decreases |body|
  {
    var s := body + Fence;
    if StartsWith(s, Fence) {
      // the body is at most two backticks, and the marker found first is the
      // one starting at position 0
      assert s[3..] == body by {
        forall i | 0 <= i < |body| ensures s[3..][i] == body[i] {
          assert body[i] == s[i] == Fence[i];
          assert s[3 + i] == Fence[3 + i - |body|];
        }
      }
      ReplaceAbsent(body, Fence, "");
    } else {
      assert body != [];
      assert s == [body[0]] + (body[1..] + Fence);
      ContainsCons(body[0], body[1..], Fence);
      assert [body[0]] + body[1..] == body;
      ClosingFenceRemoved(body[1..]);
    }
  }

  /** A tagged marker cannot occur in a body without markers followed by a closing marker. */
  lemma {:induction false} NoJsonFenceBeforeClosing(body: string)
    requires !Contains(body, Fence)
    ensures !Contains(body + Fence, JsonFence)
    decreases |body|
  {
    var s := body + Fence;
    assert JsonFence[..3] == Fence;
    if |s| >= 7 { assert s[..3] == s[..7][..3]; }
    if |body| >= 3 { assert s[..3] == body[..3]; }
    if body != [] {
      assert s[1..] == body[1..] + Fence;
      ContainsCons(body[0], body[1..], Fence);
      assert [body[0]] + body[1..] == body;
      NoJsonFenceBeforeClosing(body[1..]);
      ContainsCons(body[0], body[1..] + Fence, JsonFence);
      assert [body[0]] + (body[1..] + Fence) == s;
    }
  }

  /**
   * A reply wrapped as "```json" + body + "```", with no marker inside the
   * body, is stripped to the same text as the bare body.
   */
  lemma FencedJsonReply(body: string)
    requires !Contains(body, Fence)
    ensures StripFences(JsonFence + body + Fence) == Trim(body)
    ensures StripFences(body) == Trim(body)
  {
    var s := JsonFence + body + Fence;
    WrappedUnchanged(JsonFence, body);
    Opening(JsonFence, body);
    AfterOpening(JsonFence, body);
    ReplaceAtStart(s, JsonFence);
    NoJsonFenceBeforeClosing(body);
    ReplaceAbsent(body + Fence, JsonFence, "");
    ClosingFenceRemoved(body);
    UnfencedWhenAbsent(body);
  }

  /** A text without markers is only stripped of whitespace. */
  lemma UnfencedWhenAbsent(body: string)
    requires !Contains(body, Fence)
    ensures StripFences(body) == Trim(body)
  {
    TrimKeepsAbsence(body, Fence);
    if StartsWith(Trim(body), Fence) {
      StartsWithContains(Trim(body), Fence);
    }
    StripFencesUnfenced(body);
  }

  /** A plain opening marker followed by a body that does not begin with the tag is not a tagged marker. */
  lemma PlainOpeningNotTagged(body: string)
    requires !StartsWith(body, "json")
    ensures !StartsWith(Fence + body + Fence, JsonFence)
  {
    var s := Fence + body + Fence;
    assert JsonFence == Fence + "json";
    if |body| >= 4 {
      assert s[..7][3..] == s[3..7] == body[..4];
      assert JsonFence[3..] == "json";
    } else {
      assert s[3 + |body|] == '`';
    }
  }

  /**
   * The same for a plain marker "```" + body + "```", as long as the body does
   * not begin with the tag `json` (which would make the opening a tagged marker).
   */
  lemma FencedPlainReply(body: string)
    requires !Contains(body, Fence) && !StartsWith(body, "json")
    ensures StripFences(Fence + body + Fence) == Trim(body)
  {
    var s := Fence + body + Fence;
    WrappedUnchanged(Fence, body);
    PlainOpeningNotTagged(body);
    Opening(Fence, body);
    AfterOpening(Fence, body);
    ReplaceAtStart(s, Fence);
    ClosingFenceRemoved(body);
  }

  /** A reply wrapped in markers carries no surrounding whitespace. */
  lemma WrappedUnchanged(opening: string, body: string)
    requires opening != [] && opening[0] == '`'
    ensures Trim(opening + body + Fence) == opening + body + Fence
  {
    var s := opening + body + Fence;
    assert s[0] == '`' && s[|s| - 1] == '`';
    TrimUnchanged(s);
  }

  /** A wrapped reply opens with its opening marker. */
  lemma Opening(opening: string, body: string)
    ensures StartsWith(opening + body + Fence, opening)
  {
    assert opening + body + Fence == opening + (body + Fence);
  }

  /** What follows the opening marker of a wrapped reply. */
  lemma AfterOpening(opening: string, body: string)
    ensures (opening + body + Fence)[|opening|..] == body + Fence
  {
    assert opening + body + Fence == opening + (body + Fence);
  }
}
