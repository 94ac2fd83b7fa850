/** The display form of a user-defined function value: the keyword `fn`, the
    parameter names joined by ", " in parentheses, then the body's source text
    on its own lines between braces. */
module FunctionText {
  import opened Wrappers
  import opened Strings

  const Separator: string := ", "
  const Head: string := "fn("
  const Open: string := ") {\n"
  const Close: string := "\n}"

  /** The rendering of a function with parameter names `params` and body text `body`. */
  function Render(params: seq<string>, body: string): (s: string)
    ensures |s| >= 9 && s[..3] == "fn(" && s[|s| - 2..] == "\n}"
    ensures |s| == |Join(params, Separator)| + |body| + 9
    ensures s[|s| - 2 - |body|..|s| - 2] == body
  {
    Head + Join(params, Separator) + Open + body + Close
  }

  /** The rendering built as the interpreter builds it: the parameter names
      collected into a list, then written into a buffer piece by piece. */
  method WriteFunction(params: seq<string>, body: string) returns (out: string)
    ensures out == Render(params, body)
  {
    var names: seq<string> := [];
    var i := 0;
    while i < |params|
      invariant i <= |params|
      invariant names == params[..i]
    {
      names := names + [params[i]];
      i := i + 1;
    }
    assert names == params;
    out := "fn";
    out := out + "(";
    var j := 0;
    while j < |names|
      invariant j <= |names|
      invariant out == Head + Join(names[..j], Separator)
    {
      if j > 0 {
        JoinSnoc(names[..j], names[j], Separator);
        out := out + Separator;
      }
      assert names[..j + 1] == names[..j] + [names[j]];
      out := out + names[j];
      j := j + 1;
    }
    assert names[..j] == names;
    out := out + Open;
    out := out + body;
    out := out + Close;
  }

  /** Reads a rendering back into its parameter names and body text. */
  function Parse(s: string): Option<(seq<string>, string)> {
    if |s| < 9 || s[..3] != Head || s[|s| - 2..] != Close then None
    else
      var k := 3 + IndexOf(s[3..], ')');
      if k + 4 <= |s| - 2 && s[k..k + 4] == Open then
        Some((SplitParams(s[3..k]), s[k + 4..|s| - 2]))
      else None
  }

  /** A rendering whose names are identifiers reads back as what was rendered. */
  lemma ParseRender(params: seq<string>, body: string)
    requires forall i :: 0 <= i < |params| ==> IsParamName(params[i])
    ensures Parse(Render(params, body)) == Some((params, body))
  {
    var joined := Join(params, Separator);
    var s := Render(params, body);
    var rest := Open + body + Close;
    assert s == Head + (joined + rest);
    assert s[3..] == joined + rest;
    JoinAvoids(params, Separator, ')');
    IndexOfAfter(joined, rest, ')');
    assert IndexOf(rest, ')') == 0;
    var k := 3 + |joined|;
    assert s[k..k + 4] == Open;
    assert s[3..k] == joined;
    assert s[k + 4..|s| - 2] == body;
    SplitJoin(params);
  }

  /** Functions with identifier parameters whose parameter texts or body texts
      differ render differently. */
  lemma RenderInjective(params: seq<string>, body: string, params': seq<string>, body': string)
    requires forall i :: 0 <= i < |params| ==> IsParamName(params[i])
    requires forall i :: 0 <= i < |params'| ==> IsParamName(params'[i])
    requires Render(params, body) == Render(params', body')
    ensures params == params' && body == body'
  {
    ParseRender(params, body);
    ParseRender(params', body');
  }

  /** With no parameters the parentheses are empty. */
  lemma RenderNoParams(body: string)
    ensures Render([], body) == "fn() {\n" + body + "\n}"
  {
  }

  /** A single parameter appears alone, with no separator. */
  lemma RenderOneParam(x: string, body: string)
    ensures Render([x], body) == "fn(" + x + ") {\n" + body + "\n}"
    ensures Render([x], body)[..|x| + 7] == "fn(" + x + ") {\n"
  {
  }
}
