/** The navigation bar: the name shown for the signed-in account, made
    from its email address, and when the sign-in controls are hidden. */
module Navbar {
  import opened Common
  import Text

  /** `name.replace(/[._-]/g, " ")` */
  function Separate(s: string): (r: string)
    ensures |r| == |s|
    ensures forall i :: 0 <= i < |s| ==> r[i] == (if s[i] in {'.', '_', '-'} then ' ' else s[i])
  {
    seq(|s|, i requires 0 <= i < |s| => if s[i] in {'.', '_', '-'} then ' ' else s[i])
  }

  /** `s.split(" ")`: the pieces between spaces; there is always at least
      one, possibly empty. */
  function SplitSpaces(s: string): (r: seq<string>)
    ensures |r| >= 1
  {
    if s == [] then [""]
    else if s[0] == ' ' then [""] + SplitSpaces(s[1..])
    else
      var rest := SplitSpaces(s[1..]);
      [[s[0]] + rest[0]] + rest[1..]
  }

  /** `words.join(" ")` */
  function JoinSpaces(ws: seq<string>): string
    requires |ws| >= 1
  {
    if |ws| == 1 then ws[0] else ws[0] + " " + JoinSpaces(ws[1..])
  }

  /** `w ? w.charAt(0).toUpperCase() + w.slice(1) : ""` */
  function Capitalise(w: string): string {
    if w == "" then "" else [Text.UpperChar(w[0])] + w[1..]
  }

  function CapitaliseAll(ws: seq<string>): (r: seq<string>)
    ensures |r| == |ws| && forall i :: 0 <= i < |ws| ==> r[i] == Capitalise(ws[i])
  {
    seq(|ws|, i requires 0 <= i < |ws| => Capitalise(ws[i]))
  }

  /** `name.split(" ").map(capitalise).join(" ")` */
  function CapitaliseWords(s: string): string {
    JoinSpaces(CapitaliseAll(SplitSpaces(s)))
  }

  /** `emailToName(email)`: no name without an address; otherwise the
      local part with separators as spaces and every word start upper-cased,
      character by character. */
  function EmailToName(email: Option<string>): (r: string)
    ensures email.None? || email.value == "" ==> r == ""
    ensures email.Some? && email.value != "" ==>
      r == WordStartsUpper(Separate(Text.BeforeFirst(email.value, '@')))
  {
    if email.None? || email.value == "" then ""
    else
      var t := Separate(Text.BeforeFirst(email.value, '@'));
      CapitaliseWordsPointwise(t);
      CapitaliseWords(t)
  }

  // ---------------------------------------------------------------------
  // A character-by-character description

  /** A character is a word start when it opens the text or follows a
      space. */
  function WordStartsUpper(s: string): (r: string)
    ensures |r| == |s|
  {
    seq(|s|, i requires 0 <= i < |s| => if i == 0 || s[i - 1] == ' ' then Text.UpperChar(s[i]) else s[i])
  }

  /** As above, but the first character counts only after a space. */
  function LaterWordStartsUpper(s: string): (r: string)
    ensures |r| == |s|
  {
    seq(|s|, i requires 0 <= i < |s| => if i > 0 && s[i - 1] == ' ' then Text.UpperChar(s[i]) else s[i])
  }

  lemma JoinFirst(a: string, b: string, rest: seq<string>)
    ensures JoinSpaces([a + b] + rest) == a + JoinSpaces([b] + rest)
  {
    if rest != [] {
      assert ([a + b] + rest)[1..] == rest;
      assert ([b] + rest)[1..] == rest;
    }
  }

  lemma WordStartsAfterSpace(s: string)
    requires s != [] && s[0] == ' '
    ensures WordStartsUpper(s) == " " + WordStartsUpper(s[1..])
    ensures LaterWordStartsUpper(s) == " " + WordStartsUpper(s[1..])
  {
    var t := s[1..];
    assert forall i :: 1 <= i < |s| ==> s[i] == t[i - 1];
  }

  lemma WordStartsAtLetter(s: string)
    requires s != [] && s[0] != ' '
    ensures WordStartsUpper(s) == [Text.UpperChar(s[0])] + LaterWordStartsUpper(s[1..])
    ensures LaterWordStartsUpper(s) == [s[0]] + LaterWordStartsUpper(s[1..])
  {
    var t := s[1..];
    assert forall i :: 1 <= i < |s| ==> s[i] == t[i - 1];
  }

  /** Splitting at spaces, capitalising every piece and joining again
      upper-cases exactly the characters that open the text or follow a
      space; leaving the first piece alone spares the opening one. */
  lemma {:induction false} CapitaliseWordsPointwise(s: string)
    ensures CapitaliseWords(s) == WordStartsUpper(s)
    ensures var ws := SplitSpaces(s); JoinSpaces([ws[0]] + CapitaliseAll(ws[1..])) == LaterWordStartsUpper(s)
    decreases |s|
  {
    var ws := SplitSpaces(s);
    if s == [] {
      assert CapitaliseAll(ws) == [""];
    } else {
      CapitaliseWordsPointwise(s[1..]);
      if s[0] == ' ' {
        SpaceStep(s);
      } else {
        LetterStep(s);
      }
    }
  }

  lemma SpaceStep(s: string)
    requires s != [] && s[0] == ' '
    requires CapitaliseWords(s[1..]) == WordStartsUpper(s[1..])
    ensures CapitaliseWords(s) == WordStartsUpper(s)
    ensures var ws := SplitSpaces(s); JoinSpaces([ws[0]] + CapitaliseAll(ws[1..])) == LaterWordStartsUpper(s)
  {
    SpaceStepPieces(s);
    WordStartsAfterSpace(s);
  }

  /** A leading space splits off an empty first piece, which capitalising
      leaves empty and joining turns back into that space. */
  lemma SpaceStepPieces(s: string)
    requires s != [] && s[0] == ' '
    ensures var ws := SplitSpaces(s); var wt := SplitSpaces(s[1..]);
      && CapitaliseWords(s) == " " + JoinSpaces(CapitaliseAll(wt))
      && JoinSpaces([ws[0]] + CapitaliseAll(ws[1..])) == " " + JoinSpaces(CapitaliseAll(wt))
  {
    var ws := SplitSpaces(s);
    var wt := SplitSpaces(s[1..]);
    assert ws == [""] + wt;
    assert ws[1..] == wt;
    var cap := CapitaliseAll(ws);
    assert cap == [""] + CapitaliseAll(wt);
    assert [ws[0]] + CapitaliseAll(ws[1..]) == cap;
    assert cap[1..] == CapitaliseAll(wt);
  }

  lemma LetterStep(s: string)
    requires s != [] && s[0] != ' '
    requires var wt := SplitSpaces(s[1..]); JoinSpaces([wt[0]] + CapitaliseAll(wt[1..])) == LaterWordStartsUpper(s[1..])
    ensures CapitaliseWords(s) == WordStartsUpper(s)
    ensures var ws := SplitSpaces(s); JoinSpaces([ws[0]] + CapitaliseAll(ws[1..])) == LaterWordStartsUpper(s)
  {
    var wt := SplitSpaces(s[1..]);
    var tail := CapitaliseAll(wt[1..]);
    WordStartsAtLetter(s);
    LetterStepAll(s, wt, tail);
    LetterStepLater(s, wt, tail);
  }

  /** With a letter first, capitalising every piece upper-cases it. */
  lemma LetterStepAll(s: string, wt: seq<string>, tail: seq<string>)
    requires s != [] && s[0] != ' '
    requires wt == SplitSpaces(s[1..]) && tail == CapitaliseAll(wt[1..])
    ensures CapitaliseWords(s) == [Text.UpperChar(s[0])] + JoinSpaces([wt[0]] + tail)
  {
    var ws := SplitSpaces(s);
    var w0 := [s[0]] + wt[0];
    assert ws == [w0] + wt[1..];
    var c0 := [Text.UpperChar(s[0])] + wt[0];
    assert Capitalise(w0) == c0 by {
      assert w0[1..] == wt[0];
    }
    var all := CapitaliseAll(ws);
    assert all == [c0] + tail by {
      assert |all| == |[c0] + tail|;
      forall i | 0 <= i < |all| ensures all[i] == ([c0] + tail)[i] {
        if i > 0 {
          assert ws[i] == wt[1..][i - 1];
        }
      }
    }
    JoinFirst([Text.UpperChar(s[0])], wt[0], tail);
  }

  /** ... and leaving the first piece alone keeps it. */
  lemma LetterStepLater(s: string, wt: seq<string>, tail: seq<string>)
    requires s != [] && s[0] != ' '
    requires wt == SplitSpaces(s[1..]) && tail == CapitaliseAll(wt[1..])
    ensures var ws := SplitSpaces(s); JoinSpaces([ws[0]] + CapitaliseAll(ws[1..])) == [s[0]] + JoinSpaces([wt[0]] + tail)
  {
    var ws := SplitSpaces(s);
    assert ws == [[s[0]] + wt[0]] + wt[1..];
    assert ws[1..] == wt[1..];
    JoinFirst([s[0]], wt[0], tail);
  }

  /** The displayed name, character by character: the local part of the
      address with `.`, `_` and `-` turned into spaces and each word's first
      letter upper-cased; it is exactly as long as the local part. */
  lemma EmailToNameShape(email: string)
    requires email != ""
    ensures
      var local := Text.BeforeFirst(email, '@');
      var r := EmailToName(Some(email));
      && r == WordStartsUpper(Separate(local))
      && |r| == |local|
      && forall i :: 0 <= i < |r| ==> r[i] !in {'.', '_', '-', '@'}
  {
    var local := Text.BeforeFirst(email, '@');
    CapitaliseWordsPointwise(Separate(local));
    NoSeparators(local);
  }

  /** Word starts upper-cased after separating a text without `@` hold no
      separator and no `@`. */
  lemma NoSeparators(local: string)
    requires '@' !in local
    ensures var r := WordStartsUpper(Separate(local)); forall i :: 0 <= i < |r| ==> r[i] !in {'.', '_', '-', '@'}
  {
    var t := Separate(local);
    var r := WordStartsUpper(t);
    forall i | 0 <= i < |r| ensures r[i] !in {'.', '_', '-', '@'} {
      assert local[i] in local;
      assert t[i] !in {'.', '_', '-', '@'};
    }
  }

  /** No address gives no name. */
  lemma NoEmailNoName()
    ensures EmailToName(None) == "" && EmailToName(Some("")) == ""
  {
  }

  /** Applying `emailToName` to a name it produced changes nothing. */
  lemma EmailToNameIdempotent(email: Option<string>)
    ensures EmailToName(Some(EmailToName(email))) == EmailToName(email)
  {
    var r := EmailToName(email);
    if r != "" {
      EmailToNameShape(email.value);
      var t := Separate(Text.BeforeFirst(email.value, '@'));
      assert r == WordStartsUpper(t);
      assert '@' !in r by {
        forall i | 0 <= i < |r| ensures r[i] != '@' { }
      }
      assert Text.BeforeFirst(r, '@') == r;
      assert Separate(r) == r;
      CapitaliseWordsPointwise(r);
      WordStartsUpperIdempotent(t);
    }
  }

  /** Upper-casing the word starts a second time changes nothing. */
  lemma WordStartsUpperIdempotent(t: string)
    ensures WordStartsUpper(WordStartsUpper(t)) == WordStartsUpper(t)
  {
    var r := WordStartsUpper(t);
    forall i | 0 <= i < |r| ensures WordStartsUpper(r)[i] == r[i] {
      if i > 0 {
        assert r[i - 1] == ' ' <==> t[i - 1] == ' ';
      }
    }
  }

  /** `hideAuthControls`: the sign-in and register pages hide the
      controls. */
  function HideAuthControls(pathname: string): (r: bool)
    ensures r <==> pathname in {"/login", "/register"}
  {
    pathname == "/login" || pathname == "/register"
  }

  /** The paths are compared exactly: a trailing slash, a different case or
      a sub-page keeps the controls. */
  lemma AuthControlsOnlyOnExactPaths()
    ensures HideAuthControls("/login") && HideAuthControls("/register")
    ensures !HideAuthControls("/login/") && !HideAuthControls("/Login")
    ensures !HideAuthControls("/register/") && !HideAuthControls("/login/reset")
    ensures !HideAuthControls("/") && !HideAuthControls("")
  {
  }
}
