/**
 The key on which two copies of one assistant text segment are matched:
 whitespace runs collapsed to one space and the ends trimmed.
 */
module AssistantText {

  /** Unicode white space: the characters `strings.Fields` splits on. */
  predicate IsSpace(c: char) {
    var n := c as int;
    || 9 <= n <= 13 || n == 32 || n == 0x85 || n == 0xA0 || n == 0x1680
    || 0x2000 <= n <= 0x200A || n == 0x2028 || n == 0x2029 || n == 0x202F || n == 0x205F || n == 0x3000
  }

  predicate AllSpace(s: string) {
    forall i | 0 <= i < |s| :: IsSpace(s[i])
  }

  predicate IsWord(s: string) {
    s != "" && forall i | 0 <= i < |s| :: !IsSpace(s[i])
  }

  function DropSpace(s: string): string {
    if s != "" && IsSpace(s[0]) then DropSpace(s[1..]) else s
  }

  function WordLength(s: string): (n: nat)
    ensures n <= |s|
  {
    if s == "" || IsSpace(s[0]) then 0 else 1 + WordLength(s[1..])
  }

  lemma DropSpaceShrinks(s: string)
    ensures |DropSpace(s)| <= |s|
    ensures DropSpace(s) == "" || !IsSpace(DropSpace(s)[0])
  {
  }

  function Fields(s: string): seq<string>
    decreases |s|
  {
    DropSpaceShrinks(s);
    var rest := DropSpace(s);
    if rest == "" then []
    else
      var n := WordLength(rest);
      assert n > 0;
      [rest[..n]] + Fields(rest[n..])
  }

  function Join(words: seq<string>): string {
    if |words| == 0 then ""
    else if |words| == 1 then words[0]
    else words[0] + " " + Join(words[1..])
  }

  function Normalize(s: string): string {
    Join(Fields(s))
  }

  lemma WordLengthBound(s: string)
    ensures forall i | 0 <= i < WordLength(s) :: !IsSpace(s[i])
    ensures WordLength(s) < |s| ==> IsSpace(s[WordLength(s)])
  {
    if s != "" && !IsSpace(s[0]) {
      WordLengthBound(s[1..]);
      assert forall i | 0 < i < WordLength(s) :: s[i] == s[1..][i - 1];
    }
  }

  lemma {:induction false} FieldsAreWords(s: string)
    ensures forall w | w in Fields(s) :: IsWord(w)
    decreases |s|
  {
    DropSpaceShrinks(s);
    var rest := DropSpace(s);
    if rest != "" {
      var n := WordLength(rest);
      WordLengthBound(rest);
      assert IsWord(rest[..n]);
      FieldsAreWords(rest[n..]);
    }
  }

  lemma {:induction false} WordThenSpaceLength(w: string, s: string)
    requires forall i | 0 <= i < |w| :: !IsSpace(w[i])
    requires s == "" || IsSpace(s[0])
    ensures WordLength(w + s) == |w|
  {
    if w == "" {
      assert w + s == s;
    } else {
      assert (w + s)[1..] == w[1..] + s;
      WordThenSpaceLength(w[1..], s);
    }
  }

  lemma WordFirst(w: string, s: string)
    requires IsWord(w)
    requires s == "" || IsSpace(s[0])
    ensures Fields(w + s) == [w] + Fields(s)
  {
    WordThenSpaceLength(w, s);
    assert DropSpace(w + s) == w + s;
    assert (w + s)[..|w|] == w && (w + s)[|w|..] == s;
  }

  lemma SpaceFirst(c: char, s: string)
    requires IsSpace(c)
    ensures Fields([c] + s) == Fields(s)
  {
    assert ([c] + s)[1..] == s;
    assert DropSpace([c] + s) == DropSpace(s);
  }

  lemma {:induction false} FieldsOfJoin(words: seq<string>)
    requires forall w | w in words :: IsWord(w)
    ensures Fields(Join(words)) == words
  {
    if |words| == 1 {
      WordFirst(words[0], "");
      assert words[0] + "" == words[0];
    } else if |words| > 1 {
      var rest := Join(words[1..]);
      assert words[0] + " " + rest == words[0] + ([' '] + rest);
      WordFirst(words[0], [' '] + rest);
      SpaceFirst(' ', rest);
      FieldsOfJoin(words[1..]);
    }
  }

  /** The text without its white space. */
  function Visible(s: string): string {
    if s == "" then "" else (if IsSpace(s[0]) then "" else [s[0]]) + Visible(s[1..])
  }

  function RunTogether(words: seq<string>): string {
    if words == [] then "" else words[0] + RunTogether(words[1..])
  }

  lemma {:induction false} VisibleWord(w: string, s: string)
    requires forall i | 0 <= i < |w| :: !IsSpace(w[i])
    ensures Visible(w + s) == w + Visible(s)
  {
    if w == "" {
      assert w + s == s;
    } else {
      assert (w + s)[1..] == w[1..] + s;
      VisibleWord(w[1..], s);
    }
  }

  /** Splitting loses white space and nothing else: the words run together are the text without it. */
  lemma {:induction false} FieldsLoseOnlySpace(s: string)
    ensures RunTogether(Fields(s)) == Visible(s)
    decreases |s|
  {
    if s != "" {
      if IsSpace(s[0]) {
        assert s == [s[0]] + s[1..];
        SpaceFirst(s[0], s[1..]);
        FieldsLoseOnlySpace(s[1..]);
      } else {
        var n := WordLength(s);
        WordLengthBound(s);
        var w, rest := s[..n], s[n..];
        assert s == w + rest;
        WordFirst(w, rest);
        VisibleWord(w, rest);
        FieldsLoseOnlySpace(rest);
      }
    }
  }

  /** Two texts share a key exactly when they consist of the same words. */
  lemma KeyIdentifiesWords(s: string, t: string)
    ensures Normalize(s) == Normalize(t) <==> Fields(s) == Fields(t)
    ensures Normalize(Normalize(s)) == Normalize(s)
  {
    FieldsAreWords(s);
    FieldsAreWords(t);
    FieldsOfJoin(Fields(s));
    FieldsOfJoin(Fields(t));
  }

  lemma {:induction false} FieldsIgnoreTrailingSpace(s: string, pad: string)
    requires AllSpace(pad)
    ensures Fields(s + pad) == Fields(s)
    decreases |s|, |pad|
  {
    if s == "" {
      assert s + pad == pad;
      if pad != "" {
        assert pad == [pad[0]] + pad[1..];
        SpaceFirst(pad[0], pad[1..]);
        assert "" + pad[1..] == pad[1..];
        FieldsIgnoreTrailingSpace("", pad[1..]);
      }
    } else if IsSpace(s[0]) {
      assert s == [s[0]] + s[1..];
      assert s + pad == [s[0]] + (s[1..] + pad);
      SpaceFirst(s[0], s[1..]);
      SpaceFirst(s[0], s[1..] + pad);
      FieldsIgnoreTrailingSpace(s[1..], pad);
    } else {
      var n := WordLength(s);
      WordLengthBound(s);
      var w, rest := s[..n], s[n..];
      assert s == w + rest && s + pad == w + (rest + pad);
      WordFirst(w, rest);
      WordFirst(w, rest + pad);
      FieldsIgnoreTrailingSpace(rest, pad);
    }
  }

  lemma {:induction false} FieldsIgnoreLeadingSpace(pad: string, s: string)
    requires AllSpace(pad)
    ensures Fields(pad + s) == Fields(s)
  {
    if pad == "" {
      assert pad + s == s;
    } else {
      assert pad + s == [pad[0]] + (pad[1..] + s);
      SpaceFirst(pad[0], pad[1..] + s);
      FieldsIgnoreLeadingSpace(pad[1..], s);
    }
  }

  /** White space around one copy does not make it a different answer. */
  lemma KeyIgnoresPadding(before: string, s: string, after: string)
    requires AllSpace(before) && AllSpace(after)
    ensures Normalize(before + s + after) == Normalize(s)
  {
    FieldsIgnoreTrailingSpace(before + s, after);
    FieldsIgnoreLeadingSpace(before, s);
  }
}
