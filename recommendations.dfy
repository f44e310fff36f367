/**
 * backend/api/bot/gpt_recommendations.py: the reply suggestions shown under a bot
 * message.  The function returns three empty suggestions before it would ask the
 * model; the post-processing written below that return, which splits the model's
 * "s1 / s2 / s3" answer, is modelled as well.
 */
module Recommendations {
  import opened Wrappers
  import Strings

  /** How many suggestions are kept. */
  const SuggestionCount: nat := 3

  /**
   * `create_recommendations`: it returns at once, so every answer is three empty
   * suggestions, whatever the bot message (possibly a null reply, `None`) is.
   */
  function CreateRecommendations(botMessage: Option<string>, memory: string): (r: seq<string>)
    ensures |r| == SuggestionCount
    ensures forall i :: 0 <= i < |r| ==> r[i] == ""
  {
    ["", "", ""]
  }

  /** One suggestion cleaned: every '.' removed, then stripped. */
  function Clean(piece: string): (r: string)
    ensures '.' !in r
    ensures Strings.Unpadded(r)
    ensures forall c :: c in r ==> c in piece
  {
    var r := Strings.Strip(Strings.RemoveChar(piece, '.'));
    forall c | c in r
      ensures c in piece && c != '.'
    {
      Strings.StripKeeps(Strings.RemoveChar(piece, '.'), c);
    }
    r
  }

  /** What the post-processing makes of a model answer: the first three pieces between '/', each cleaned. */
  function Suggestions(answer: string): (r: seq<string>)
    ensures var pieces := Strings.Split(answer, '/');
            && |r| == (if |pieces| < SuggestionCount then |pieces| else SuggestionCount)
            && forall i :: 0 <= i < |r| ==> r[i] == Clean(pieces[i])
    ensures 1 <= |r| <= SuggestionCount
    ensures forall i :: 0 <= i < |r| ==> '.' !in r[i] && '/' !in r[i] && Strings.Unpadded(r[i])
  {
    var pieces := Strings.Split(answer, '/');
    var n := if |pieces| < SuggestionCount then |pieces| else SuggestionCount;
    seq(n, i requires 0 <= i < n => Clean(pieces[i]))
  }

  /** The loop that cleans each piece into `final_suggestions`, and the slice `[0:3]`. */
  method PostProcessSuggestions(answer: string) returns (finalSuggestions: seq<string>)
    ensures finalSuggestions == Suggestions(answer)
  {
    var pieces := Strings.Split(answer, '/');
    var cleaned: seq<string> := [];
    for k := 0 to |pieces|
      invariant |cleaned| == k
      invariant forall j :: 0 <= j < k ==> cleaned[j] == Clean(pieces[j])
    {
      cleaned := cleaned + [Clean(pieces[k])];
    }
    finalSuggestions := if |cleaned| < SuggestionCount then cleaned else cleaned[..SuggestionCount];
  }

  /** A suggestion padded with whitespace, and with no '.' of its own, cleans back to itself. */
  lemma CleanPadded(pad: string, s: string, tail: string)
    requires Strings.AllSpace(pad) && Strings.AllSpace(tail)
    requires s != [] && Strings.Unpadded(s) && '.' !in s
    ensures Clean(pad + s + tail) == s
    ensures pad == [] ==> Clean(s + tail) == s
    ensures tail == [] ==> Clean(pad + s) == s
  {
    assert pad == [] ==> pad + s + tail == s + tail;
    assert tail == [] ==> pad + s + tail == pad + s;
    assert '.' !in pad && '.' !in tail by {
      assert !Strings.IsSpace('.');
    }
    Strings.RemoveCharConcat(pad + s, tail, '.');
    Strings.RemoveCharConcat(pad, s, '.');
    Strings.RemoveAbsentChar(pad, '.');
    Strings.RemoveAbsentChar(s, '.');
    Strings.RemoveAbsentChar(tail, '.');
    Strings.StripPadded(pad, s, tail);
    Strings.StripUnpadded(s);
  }

  /** A suggestion as the prompt asks for it: non-empty, no surrounding whitespace, no '.' and no '/'. */
  predicate Plain(s: string) {
    s != [] && Strings.Unpadded(s) && '.' !in s && '/' !in s
  }

  /** The requested form is the three suggestions, padded by one space each side of a '/', joined by '/'. */
  lemma RequestedFormJoin(s1: string, s2: string, s3: string)
    ensures Strings.Join([s1 + " ", " " + s2 + " ", " " + s3], "/") == s1 + " / " + s2 + " / " + s3
  {
    var parts := [s1 + " ", " " + s2 + " ", " " + s3];
    assert parts[1..][1..] == [" " + s3];
    assert Strings.Join(parts[1..], "/") == " " + s2 + " " + "/" + " " + s3;
  }

  /** An answer in the requested form "s1 / s2 / s3" yields exactly the three suggestions. */
  lemma SuggestionsOfRequestedForm(s1: string, s2: string, s3: string)
    requires Plain(s1) && Plain(s2) && Plain(s3)
    ensures Suggestions(s1 + " / " + s2 + " / " + s3) == [s1, s2, s3]
  {
    var parts := [s1 + " ", " " + s2 + " ", " " + s3];
    RequestedFormJoin(s1, s2, s3);
    assert '/' !in parts[0] && '/' !in parts[1] && '/' !in parts[2];
    Strings.SplitJoin(parts, '/');
    var r := Suggestions(s1 + " / " + s2 + " / " + s3);
    assert |r| == 3;
    CleanPadded("", s1, " ");
    CleanPadded(" ", s2, " ");
    CleanPadded(" ", s3, "");
  }
}
