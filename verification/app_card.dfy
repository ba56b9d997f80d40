/** The pure helpers of one portfolio card (components/AppCard.tsx): the
    status text, the status colour, the type label, and the URL a press
    opens. */
module AppCard {
  import opened Wrappers
  import opened Types

  // ---------------------------------------------------------------------
  // String helpers: the `split`, `join` and `toUpperCase` the card uses.
  // ---------------------------------------------------------------------

  /** Number of occurrences of `c` in `s`. */
  function Count(s: string, c: char): nat
  {
    if s == [] then 0 else (if s[0] == c then 1 else 0) + Count(s[1..], c)
  }

  /** Splitting on a separator character: the pieces between separators,
      empty pieces included; the empty string splits into one empty piece. */
  function Split(s: string, sep: char): (parts: seq<string>)
    ensures |parts| == Count(s, sep) + 1
    ensures forall i :: 0 <= i < |parts| ==> sep !in parts[i]
  {
    if s == [] then [""]
    else if s[0] == sep then [""] + Split(s[1..], sep)
    else
      var rest := Split(s[1..], sep);
      [[s[0]] + rest[0]] + rest[1..]
  }

  /** Joining pieces with a separator character between neighbours; no
      pieces join to the empty string. The first piece starts the result,
      and when no piece holds the separator the result holds exactly one
      separator fewer than there are pieces. */
  function Join(parts: seq<string>, sep: char): (r: string)
    ensures parts != [] ==> parts[0] <= r
    ensures parts != [] && (forall i :: 0 <= i < |parts| ==> sep !in parts[i]) ==>
      Count(r, sep) == |parts| - 1
  {
    if parts == [] then ""
    else if |parts| == 1 then
      CountAbsent(parts[0], sep);
      parts[0]
    else
      var rest := Join(parts[1..], sep);
      assert forall i :: 1 <= i < |parts| ==> parts[i] == parts[1..][i - 1];
      CountAbsent(parts[0], sep);
      CountAppend(parts[0], [sep], sep);
      CountAppend(parts[0] + [sep], rest, sep);
      assert Count([sep], sep) == 1 by { assert [sep][1..] == []; }
      parts[0] + [sep] + rest
  }

  lemma {:induction false} CountAppend(a: string, b: string, c: char)
    ensures Count(a + b, c) == Count(a, c) + Count(b, c)
  {
    if a == [] {
      assert a + b == b;
    } else {
      CountAppend(a[1..], b, c);
      assert (a + b)[1..] == a[1..] + b;
    }
  }

  lemma {:induction false} CountAbsent(s: string, c: char)
    ensures c !in s <==> Count(s, c) == 0
  {
    if s != [] { CountAbsent(s[1..], c); }
  }

  /** Splitting and joining on the same separator gives back the input, so
      `Split` loses nothing. */
  lemma {:induction false} JoinSplit(s: string, sep: char)
    ensures Join(Split(s, sep), sep) == s
  {
    if s == [] {
    } else if s[0] == sep {
      JoinSplit(s[1..], sep);
      assert s == [sep] + s[1..];
    } else {
      var rest := Split(s[1..], sep);
      JoinSplit(s[1..], sep);
      if |rest| == 1 {
        assert s == [s[0]] + rest[0];
      } else {
        assert rest == [rest[0]] + rest[1..];
        assert s == [s[0]] + (rest[0] + [sep] + Join(rest[1..], sep));
      }
    }
  }

  /** Upper-casing one character, for ASCII letters. */
  function Upper(c: char): (u: char)
    ensures ('a' <= c <= 'z') ==> 'A' <= u <= 'Z' && u as int == c as int - 32
    ensures !('a' <= c <= 'z') ==> u == c
  {
    if 'a' <= c <= 'z' then (c as int - 32) as char else c
  }

  /** A word with its first character upper-cased and the rest kept. */
  function Capitalize(word: string): (r: string)
    ensures |r| == |word|
    ensures word != [] ==> r[0] == Upper(word[0]) && r[1..] == word[1..]
  {
    if word == [] then "" else [Upper(word[0])] + word[1..]
  }

  /** Every word capitalised, in order. */
  function CapitalizeWords(words: seq<string>): (r: seq<string>)
    ensures |r| == |words|
    ensures forall i :: 0 <= i < |words| ==> r[i] == Capitalize(words[i])
  {
    if words == [] then [] else [Capitalize(words[0])] + CapitalizeWords(words[1..])
  }

  // ---------------------------------------------------------------------
  // formatStatus (components/AppCard.tsx:96-98)
  // ---------------------------------------------------------------------

  /** Split on `-`, capitalise every word, join with a space. The result
      has the input's length; each `-` becomes one space, the first letter of
      each word is upper-cased and every other character is kept. */
  function FormatStatus(status: string): (r: string)
    ensures |r| == |status|
    ensures forall i :: 0 <= i < |status| ==> r[i] == FormatChar(status, i)
    ensures '-' !in r
    ensures Count(r, ' ') == Count(status, '-') + Count(status, ' ')
  {
    FormatFromSplit(status);
    FormatFromPointwise(status);
    FormatFromCounts(status, true);
    CountAbsent(FormatFrom(status, true), '-');
    Join(CapitalizeWords(Split(status, '-')), ' ')
  }

  /** Reference definition, character by character: a `-` becomes a space,
      the first letter of each word is upper-cased, everything else is kept. */
  function FormatChar(s: string, i: nat): char
    requires i < |s|
  {
    if s[i] == '-' then ' '
    else if i == 0 || s[i - 1] == '-' then Upper(s[i])
    else s[i]
  }

  /** The same text produced left to right; `atWordStart` says whether the
      next character begins a word. */
  function FormatFrom(s: string, atWordStart: bool): (r: string)
    ensures |r| == |s|
  {
    if s == [] then ""
    else if s[0] == '-' then [' '] + FormatFrom(s[1..], true)
    else [if atWordStart then Upper(s[0]) else s[0]] + FormatFrom(s[1..], false)
  }

  lemma JoinPrepend(c: char, first: string, rest: seq<string>, sep: char)
    ensures Join([[c] + first] + rest, sep) == [c] + Join([first] + rest, sep)
  {
    var a := [[c] + first] + rest;
    var b := [first] + rest;
    assert a[1..] == rest && b[1..] == rest;
  }

  lemma JoinEmptyFirst(rest: seq<string>, sep: char)
    requires rest != []
    ensures Join([""] + rest, sep) == [sep] + Join(rest, sep)
  {
    var a := [""] + rest;
    assert a[1..] == rest;
  }

  /** Splitting, capitalising every word (or every word but the first) and
      joining agrees with the left-to-right scan. */
  lemma {:induction false} FormatFromSplit(s: string)
    ensures Join(CapitalizeWords(Split(s, '-')), ' ') == FormatFrom(s, true)
    ensures var p := Split(s, '-');
      Join([p[0]] + CapitalizeWords(p[1..]), ' ') == FormatFrom(s, false)
  {
    if s == [] {
    } else if s[0] == '-' {
      var r := Split(s[1..], '-');
      FormatFromSplit(s[1..]);
      var p := Split(s, '-');
      assert p == [""] + r;
      assert p[1..] == r;
      assert CapitalizeWords(p) == [""] + CapitalizeWords(r);
      JoinEmptyFirst(CapitalizeWords(r), ' ');
    } else {
      var r := Split(s[1..], '-');
      FormatFromSplit(s[1..]);
      var p := Split(s, '-');
      var c := s[0];
      assert p == [[c] + r[0]] + r[1..];
      assert p[1..] == r[1..];
      assert r == [r[0]] + r[1..];
      var tail := CapitalizeWords(r[1..]);
      assert CapitalizeWords(r) == [Capitalize(r[0])] + tail;
      // Every word capitalised.
      assert CapitalizeWords(p) == [[Upper(c)] + r[0]] + tail;
      JoinPrepend(Upper(c), r[0], tail, ' ');
      // All but the first word capitalised.
      JoinPrepend(c, r[0], tail, ' ');
    }
  }

  lemma {:induction false} FormatFromAt(s: string, atWordStart: bool, i: nat)
    requires i < |s|
    ensures FormatFrom(s, atWordStart)[i] ==
      (if s[i] == '-' then ' '
       else if (i == 0 && atWordStart) || (i > 0 && s[i - 1] == '-') then Upper(s[i])
       else s[i])
  {
    if i > 0 {
      FormatFromAt(s[1..], s[0] == '-', i - 1);
    }
  }

  lemma FormatFromPointwise(s: string)
    ensures forall i :: 0 <= i < |s| ==> FormatFrom(s, true)[i] == FormatChar(s, i)
  {
    forall i | 0 <= i < |s| ensures FormatFrom(s, true)[i] == FormatChar(s, i) {
      FormatFromAt(s, true, i);
    }
  }

  lemma {:induction false} FormatFromCounts(s: string, atWordStart: bool)
    ensures Count(FormatFrom(s, atWordStart), ' ') == Count(s, '-') + Count(s, ' ')
    ensures Count(FormatFrom(s, atWordStart), '-') == 0
  {
    if s != [] {
      FormatFromCounts(s[1..], s[0] == '-');
      var r := FormatFrom(s, atWordStart);
      assert r[1..] == FormatFrom(s[1..], s[0] == '-');
    }
  }

  /** Two strings of equal length that agree with the character-by-character
      reference definition are the formatted text. */
  lemma FormattedAs(s: string, t: string)
    requires |t| == |s|
    requires forall i :: 0 <= i < |s| ==> FormatChar(s, i) == t[i]
    ensures FormatStatus(s) == t
  {
  }

  /** The three statuses are shown as "Successful", "In Progress" and
      "Failed". */
  lemma FormatSuccessful()
    ensures FormatStatus(StatusName(Successful)) == "Successful"
  {
    var s := "successful";
    forall i | 0 <= i < |s| ensures FormatChar(s, i) == "Successful"[i] {
      if i == 0 { assert Upper('s') == 'S'; }
    }
    FormattedAs(s, "Successful");
  }

  lemma FormatInProgress()
    ensures FormatStatus(StatusName(InProgress)) == "In Progress"
  {
    var s := "in-progress";
    forall i | 0 <= i < |s| ensures FormatChar(s, i) == "In Progress"[i] {
      if i == 0 { assert Upper('i') == 'I'; }
      if i == 3 { assert Upper('p') == 'P'; }
    }
    FormattedAs(s, "In Progress");
  }

  lemma FormatFailed()
    ensures FormatStatus(StatusName(Failed)) == "Failed"
  {
    var s := "failed";
    forall i | 0 <= i < |s| ensures FormatChar(s, i) == "Failed"[i] {
      if i == 0 { assert Upper('f') == 'F'; }
    }
    FormattedAs(s, "Failed");
  }

  // ---------------------------------------------------------------------
  // getStatusColor (components/AppCard.tsx:83-94)
  // ---------------------------------------------------------------------

  const GREEN := "#4ade80"
  const YELLOW := "#facc15"
  const RED := "#f87171"
  const GRAY := "#9ca3af"

  /** The dot colour for a status string: green for successful, yellow for
      in progress, red for failed, gray for any string outside the union. */
  function StatusColor(status: string): (color: string)
    ensures color in {GREEN, YELLOW, RED, GRAY}
    ensures color == GRAY <==> ParseStatus(status) == None
    ensures status == "successful" ==> color == GREEN
    ensures status == "in-progress" ==> color == YELLOW
    ensures status == "failed" ==> color == RED
  {
    if status == "successful" then GREEN
    else if status == "in-progress" then YELLOW
    else if status == "failed" then RED
    else GRAY
  }

  /** For a well-typed status the default branch is never taken, and the
      three statuses get three different colours. */
  lemma StatusColorOfStatus(a: AppStatus, b: AppStatus)
    ensures StatusColor(StatusName(a)) != GRAY
    ensures StatusColor(StatusName(a)) == StatusColor(StatusName(b)) <==> a == b
  {
  }

  // ---------------------------------------------------------------------
  // The type label (components/AppCard.tsx:63)
  // ---------------------------------------------------------------------

  function TypeLabel(t: AppType): (text: string)
    ensures text == "iOS App" <==> t == Ios
    ensures text == "Web App" <==> t != Ios
  {
    if t == Ios then "iOS App" else "Web App"
  }

  // ---------------------------------------------------------------------
  // handlePress (components/AppCard.tsx:30-35)
  // ---------------------------------------------------------------------

  /** An address that already begins with `http` is kept as it is; any
      other gets `https://` in front. */
  function NormalizeUrl(url: string): (r: string)
    ensures "http" <= r
    ensures "http" <= url ==> r == url
    ensures !("http" <= url) ==> r == "https://" + url
  {
    if "http" <= url then url else "https://" + url
  }

  /** Normalising twice is normalising once, and the original address is
      always the tail of the normalised one. */
  lemma NormalizeUrlIdempotent(url: string)
    ensures NormalizeUrl(NormalizeUrl(url)) == NormalizeUrl(url)
    ensures var r := NormalizeUrl(url); r[|r| - |url|..] == url
  {
  }

  /** The address a press hands to the system's link opener, or `None` when
      the press does nothing (absent or empty `url`). */
  function PressTarget(app: App): (target: Option<string>)
    ensures target == None <==> app.url == None || app.url == Some("")
    ensures target != None ==> "http" <= target.value && target == Some(NormalizeUrl(app.url.value))
  {
    if app.url.Some? && app.url.value != "" then Some(NormalizeUrl(app.url.value)) else None
  }

  /** The external-link icon (components/AppCard.tsx:65) is shown exactly for
      the cards whose press opens something. */
  function ShowsLinkIcon(app: App): (shown: bool)
    ensures shown <==> PressTarget(app) != None
  {
    app.url.Some? && app.url.value != ""
  }

  // ---------------------------------------------------------------------
  // The card as rendered
  // ---------------------------------------------------------------------

  /** What one card shows, and what pressing it opens. `image` is the
      `image_url` when it is present and non-empty (otherwise the
      placeholder icon is drawn). */
  datatype Card = Card(
    key: string,
    index: nat,
    title: string,
    typeLabel: string,
    description: string,
    image: Option<string>,
    showsLink: bool,
    statusColor: string,
    statusText: string,
    opens: Option<string>)

  /** The card of one app at a position in its section, keyed by the app's
      id as the section's list sets it (app/index.tsx:63). */
  function CardOf(app: App, index: nat): (card: Card)
    ensures card.key == app.id && card.title == app.name && card.index == index
    ensures card.description == app.description
    ensures card.typeLabel == TypeLabel(app.appType)
    ensures card.statusColor == StatusColor(StatusName(app.status)) && card.statusColor != GRAY
    ensures card.statusText == FormatStatus(StatusName(app.status))
    ensures app.status == Successful ==> card.statusText == "Successful"
    ensures app.status == InProgress ==> card.statusText == "In Progress"
    ensures app.status == Failed ==> card.statusText == "Failed"
    ensures card.opens == PressTarget(app)
    ensures card.showsLink <==> card.opens != None
  {
    StatusColorOfStatus(app.status, app.status);
    FormatSuccessful();
    FormatInProgress();
    FormatFailed();
    Card(
      app.id,
      index,
      app.name,
      TypeLabel(app.appType),
      app.description,
      if app.imageUrl.Some? && app.imageUrl.value != "" then app.imageUrl else None,
      ShowsLinkIcon(app),
      StatusColor(StatusName(app.status)),
      FormatStatus(StatusName(app.status)),
      PressTarget(app))
  }
}
