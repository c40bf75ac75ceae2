/** The markdown `code` renderer: which fenced blocks become a highlighted
    code block, with what language and code text, and which of them get the
    run button. */
module CodeRender {
  import opened Wrappers

  /** The regular-expression class `\w`: ASCII letters, digits and `_`. */
  predicate IsWordChar(c: char)
  {
    ('a' <= c <= 'z') || ('A' <= c <= 'Z') || ('0' <= c <= '9') || c == '_'
  }

  const LanguagePrefix: string := "language-"

  /** The pattern `language-(\w+)` matches at offset `i` of `s`: the prefix
      is there and at least one word character follows it. */
  predicate MatchesAt(s: string, i: int)
  {
    0 <= i && i + |LanguagePrefix| < |s|
    && s[i..i + |LanguagePrefix|] == LanguagePrefix
    && IsWordChar(s[i + |LanguagePrefix|])
  }

  /** `i` is the leftmost offset where the pattern matches. */
  ghost predicate LeftmostMatch(s: string, i: int)
  {
    MatchesAt(s, i) && forall k :: 0 <= k < i ==> !MatchesAt(s, k)
  }

  /** The greedy `\w+` run starting at `j`: the longest piece of word
      characters there. */
  function WordRun(s: string, j: nat): (w: string)
    requires j <= |s|
    ensures j + |w| <= |s| && s[j..j + |w|] == w
    ensures forall k :: 0 <= k < |w| ==> IsWordChar(w[k])
    ensures j + |w| == |s| || !IsWordChar(s[j + |w|])
    decreases |s| - j
  {
    if j < |s| && IsWordChar(s[j]) then [s[j]] + WordRun(s, j + 1) else []
  }

  /** The leftmost offset at or after `from` where the pattern matches. */
  function FirstMatch(s: string, from: nat): (r: Option<nat>)
    ensures r.Some? ==> from <= r.value && MatchesAt(s, r.value)
    ensures r.Some? ==> forall k :: from <= k < r.value ==> !MatchesAt(s, k)
    ensures r.None? ==> forall k :: from <= k ==> !MatchesAt(s, k)
    decreases |s| - from
  {
    if from >= |s| then None
    else if MatchesAt(s, from) then Some(from)
    else FirstMatch(s, from + 1)
  }

  /** `/language-(\w+)/.exec(className)`, first group: the language named
      by a fenced block's class, if the class names one. It is present
      exactly when the pattern matches somewhere, and then it is the
      non-empty greedy word run after the leftmost match's prefix. */
  function Language(className: string): (r: Option<string>)
    ensures r.None? <==> forall i :: !MatchesAt(className, i)
    ensures r.Some? ==>
      exists i :: LeftmostMatch(className, i) && r.value == WordRun(className, i + |LanguagePrefix|)
    ensures r.Some? ==> |r.value| > 0 && forall k :: 0 <= k < |r.value| ==> IsWordChar(r.value[k])
  {
    match FirstMatch(className, 0)
    case None => None
    case Some(i) =>
      assert LeftmostMatch(className, i);
      Some(WordRun(className, i + |LanguagePrefix|))
  }

  /** The class a fenced block of language `w` carries reads back as `w`,
      whatever follows it that does not continue the word. */
  lemma {:induction false} LanguageOfClass(w: string, rest: string)
    requires |w| > 0 && forall k :: 0 <= k < |w| ==> IsWordChar(w[k])
    requires rest == [] || !IsWordChar(rest[0])
    ensures Language(LanguagePrefix + w + rest) == Some(w)
  {
    var s := LanguagePrefix + w + rest;
    assert s[..|LanguagePrefix|] == LanguagePrefix;
    assert s[|LanguagePrefix|] == w[0];
    assert MatchesAt(s, 0);
    WordRunOf(s, |LanguagePrefix|, w);
  }

  lemma WordRunOf(s: string, j: nat, w: string)
    requires j + |w| <= |s| && s[j..j + |w|] == w
    requires forall k :: 0 <= k < |w| ==> IsWordChar(w[k])
    requires j + |w| == |s| || !IsWordChar(s[j + |w|])
    ensures WordRun(s, j) == w
    decreases |w|
  {
  }

  /** `String(children).replace(/\n$/, '')`: the code text with one final
      newline removed, when there is one. */
  function StripFinalNewline(code: string): (r: string)
    ensures |code| > 0 && code[|code| - 1] == '\n' ==> r + "\n" == code
    ensures !(|code| > 0 && code[|code| - 1] == '\n') ==> r == code
  {
    if |code| > 0 && code[|code| - 1] == '\n' then code[..|code| - 1] else code
  }

  /** Exactly one newline is removed: stripping undoes appending a newline,
      and a block ending in two newlines keeps one of them. */
  lemma StripUndoesNewline(code: string)
    ensures StripFinalNewline(code + "\n") == code
    ensures StripFinalNewline(code + "\n\n") == code + "\n"
  {
  }

  /** The run button is offered only for Python blocks. */
  predicate Runnable(language: string)
  {
    language == "python"
  }

  /** What the renderer produces for one `code` element. */
  datatype Rendered =
    | Block(language: string, code: string, runnable: bool)
    | InlineCode(className: Option<string>, children: string)

  /** The `code` renderer. A highlighted block is produced exactly when the
      element is not inline (an absent flag counts as not inline) and its
      class (an absent class counts as "") names a language; the block then
      shows that language, the code with one final newline stripped, and a
      run button exactly for Python. Every other element is passed through
      with its class and text unchanged. */
  function RenderCode(inline: Option<bool>, className: Option<string>, children: string): (r: Rendered)
    ensures r.Block? <==> inline != Some(true) && Language(className.GetOr("")).Some?
    ensures r.Block? ==>
      && Language(className.GetOr("")) == Some(r.language)
      && r.code == StripFinalNewline(children)
      && (r.runnable <==> r.language == "python")
    ensures r.InlineCode? ==> r.className == className && r.children == children
  {
    var lang := Language(className.GetOr(""));
    if inline != Some(true) && lang.Some? then
      Block(lang.value, StripFinalNewline(children), Runnable(lang.value))
    else
      InlineCode(className, children)
  }
}
