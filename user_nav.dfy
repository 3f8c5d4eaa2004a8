/** The user menu of the dashboard header: the avatar's initials and the logout action. */
module UserNav {

  import opened Common
  import opened Text
  import opened Remote
  import opened Navigation
  import Session

  const FALLBACK := "U"
  const SPACE := ' '

  /** `map(n => n[0]).join('')`: the first character of every word; an empty word's first
      character is undefined, which joins as nothing. */
  function FirstChars(words: seq<string>): string {
    if |words| == 0 then []
    else (if |words[0]| > 0 then [words[0][0]] else []) + FirstChars(words[1..])
  }

  /** `getInitials`. */
  function Initials(name: Option<string>): (r: string)
    ensures |r| <= 2
    ensures name.None? || name.value == "" ==> r == FALLBACK
  {
    if name.None? || name.value == "" then FALLBACK
    else Upper(Take(FirstChars(Split(name.value, SPACE)), 2))
  }

  /** Splitting at a separator the first piece does not contain peels that piece off. */
  lemma {:induction false} SplitAfterWord(w: string, t: string, sep: char)
    requires sep !in w
    ensures Split(w + [sep] + t, sep) == [w] + Split(t, sep)
  {
    if |w| == 0 {
      assert w + [sep] + t == [sep] + t;
      assert ([sep] + t)[1..] == t;
    } else {
      assert sep !in w[1..];
      SplitAfterWord(w[1..], t, sep);
      assert (w + [sep] + t)[1..] == w[1..] + [sep] + t;
      assert [w[0]] + w[1..] == w;
    }
  }

  /** Joining words without the separator and splitting again gives the words back. */
  lemma {:induction false} SplitOfJoin(ws: seq<string>, sep: char)
    requires |ws| >= 1 && forall i :: 0 <= i < |ws| ==> sep !in ws[i]
    ensures Split(Join(ws, sep), sep) == ws
  {
    if |ws| == 1 {
      SplitNoSeparator(ws[0], sep);
    } else {
      SplitOfJoin(ws[1..], sep);
      SplitAfterWord(ws[0], Join(ws[1..], sep), sep);
      assert ws == [ws[0]] + ws[1..];
    }
  }

  /** For a name made of words separated by single spaces, the initials are the
      upper-cased first characters of its non-empty words, at most two. */
  lemma InitialsOfWords(ws: seq<string>)
    requires |ws| >= 1 && forall i :: 0 <= i < |ws| ==> SPACE !in ws[i]
    requires Join(ws, SPACE) != ""
    ensures Initials(Some(Join(ws, SPACE))) == Upper(Take(FirstChars(ws), 2))
  {
    SplitOfJoin(ws, SPACE);
  }

  /** A single word gives a single initial: its first character, upper-cased. */
  lemma SingleWordOneInitial(name: string)
    requires name != "" && SPACE !in name
    ensures Initials(Some(name)) == [UpperChar(name[0])]
  {
    SplitNoSeparator(name, SPACE);
    assert FirstChars([name]) == [name[0]] + FirstChars([]);
  }

  /** Two words give two initials, whatever follows them. */
  lemma TwoWordsTwoInitials(first: string, second: string, rest: string)
    requires first != "" && second != "" && SPACE !in first && SPACE !in second
    ensures Initials(Some(first + [SPACE] + second + rest)) == [UpperChar(first[0]), UpperChar(second[0])]
  {
    var name := first + [SPACE] + second + rest;
    assert name == first + [SPACE] + (second + rest);
    SplitAfterWord(first, second + rest, SPACE);
    var tail := Split(second + rest, SPACE);
    assert |tail[0]| > 0 && tail[0][0] == second[0] by {
      SecondWordStart(second, rest);
    }
    var fc := FirstChars([first] + tail);
    assert fc == [first[0]] + FirstChars(tail);
    assert FirstChars(tail) == [tail[0][0]] + FirstChars(tail[1..]);
  }

  /** A non-empty first piece stays at the head of the first word of a split. */
  lemma {:induction false} SecondWordStart(w: string, rest: string)
    requires w != "" && SPACE !in w
    ensures |Split(w + rest, SPACE)[0]| > 0 && Split(w + rest, SPACE)[0][0] == w[0]
  {
    assert (w + rest)[0] == w[0];
  }

  /** A name of spaces only is truthy but has no non-empty word, so its initials are
      empty rather than the fallback. */
  lemma BlankNameNoInitials()
    ensures Initials(Some("  ")) == ""
  {
    assert Split("  ", SPACE) == [""] + Split(" ", SPACE);
    assert Split(" ", SPACE) == [""] + Split("", SPACE);
    assert Split("  ", SPACE) == ["", "", ""];
    assert FirstChars(["", "", ""]) == [] + FirstChars(["", ""]);
    assert FirstChars(["", ""]) == [] + FirstChars([""]);
    assert FirstChars([""]) == [] + FirstChars([]);
  }

  /** `handleLogout`: the sign-out is awaited, and only then does the menu go to the login. */
  method HandleLogout(store: Store, router: Router)
    modifies store, router
    ensures store.db == old(store.db).SignOut()
    ensures router.history == old(router.history) + [Session.LOGIN]
  {
    store.SignOut();
    router.Navigate(Session.LOGIN);
  }
}
