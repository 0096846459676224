/**
 * The time monitor panel: the ledger of seconds per site as the popup holds it,
 * the message that bumps one site, the display order (longest first) and the
 * "1h 2m 3s" rendering of a number of seconds.
 */
module TimeMonitor {
  import opened Wrappers
  import opened Text
  import Background

  // ----- formatDuration -----

  /** JavaScript's `%` on integers: the remainder takes the sign of the dividend. */
  function JsRem(a: int, b: int): (r: int)
    requires b > 0
    ensures a >= 0 ==> r == a % b
    ensures a < 0 ==> -b < r <= 0
  {
    if a >= 0 then a % b else -((-a) % b)
  }

  /** `Math.floor(seconds / 3600)`; Dafny's `/` by a positive divisor is floor division. */
  function Hours(seconds: int): int {
    seconds / 3600
  }

  /** `Math.floor((seconds % 3600) / 60)`. */
  function Minutes(seconds: int): int {
    JsRem(seconds, 3600) / 60
  }

  /** `seconds % 60`. */
  function Secs(seconds: int): int {
    JsRem(seconds, 60)
  }

  /** One part of the rendering before trimming: the number and its suffix, or nothing. */
  function Piece(n: int, suffix: string): string {
    if n > 0 then DecimalString(n) + suffix else ""
  }

  /** The template string `${h > 0 ? `${h}h ` : ''}${m > 0 ? `${m}m ` : ''}${s > 0 ? `${s}s` : ''}`. */
  function Raw(h: int, m: int, s: int): string {
    Piece(h, "h ") + Piece(m, "m ") + Piece(s, "s")
  }

  /** `formatDuration(seconds)`: the template, trimmed, or "0s" when that is empty. */
  function FormatDuration(seconds: int): (r: string)
    ensures r != []
  {
    Render(Hours(seconds), Minutes(seconds), Secs(seconds))
  }

  /** The template for given hours, minutes and seconds, trimmed, or "0s" when that is empty. */
  function Render(h: int, m: int, s: int): (r: string)
    ensures r != []
  {
    var trimmed := Trim(Raw(h, m, s));
    if trimmed == "" then "0s" else trimmed
  }

  /** For a non-negative count the three parts recompose it, minutes and seconds below 60. */
  lemma DurationDecomposition(seconds: int)
    requires seconds >= 0
    ensures Hours(seconds) * 3600 + Minutes(seconds) * 60 + Secs(seconds) == seconds
    ensures 0 <= Minutes(seconds) < 60 && 0 <= Secs(seconds) < 60 && Hours(seconds) >= 0
  {
    var h := seconds / 3600;
    var rest := seconds % 3600;
    var m := rest / 60;
    var s := rest % 60;
    assert seconds == 3600 * h + 60 * m + s;
    assert seconds == 60 * (60 * h + m) + s;
    assert seconds % 60 == s;
  }

  /** A component as shown: the number followed by its unit letter, when positive. */
  function Shown(n: int, unit: char): seq<string> {
    if n > 0 then [DecimalString(n) + [unit]] else []
  }

  /** The components shown, in order: hours, minutes, seconds, each only when positive. */
  function Units(seconds: int): seq<string> {
    Shown(Hours(seconds), 'h') + Shown(Minutes(seconds), 'm') + Shown(Secs(seconds), 's')
  }

  /** The rendering is the positive components joined by single spaces, or "0s" when there are none. */
  lemma FormatJoinsUnits(seconds: int)
    ensures FormatDuration(seconds) == if Units(seconds) == [] then "0s" else Join(Units(seconds), ' ')
  {
    RenderIsJoin(Hours(seconds), Minutes(seconds), Secs(seconds));
  }

  lemma RenderIsJoin(h: int, m: int, s: int)
    ensures var units := Shown(h, 'h') + Shown(m, 'm') + Shown(s, 's');
      Render(h, m, s) == if units == [] then "0s" else Join(units, ' ')
  {
    TrimmedRawIsJoin(h, m, s);
    if h > 0 || m > 0 || s > 0 {
      JoinShape(h, m, s);
    }
  }

  /** The trimmed template is exactly the join of the shown components. */
  lemma TrimmedRawIsJoin(h: int, m: int, s: int)
    ensures var units := Shown(h, 'h') + Shown(m, 'm') + Shown(s, 's');
      Trim(Raw(h, m, s)) == Join(units, ' ')
  {
    var units := Shown(h, 'h') + Shown(m, 'm') + Shown(s, 's');
    var raw := Raw(h, m, s);
    var joined := Join(units, ' ');
    RawIsJoin(h, m, s);
    if units == [] {
      assert raw == [];
      TrimOfTrimmed(raw);
    } else {
      JoinShape(h, m, s);
      if s > 0 {
        assert raw == joined;
        TrimOfTrimmed(joined);
      } else {
        assert raw == joined + " ";
        TrimDropsTrailingSpace(joined);
      }
    }
  }

  /** The template is the join of the shown components, plus a trailing space when the
    * seconds are not shown but something else is. */
  lemma RawIsJoin(h: int, m: int, s: int)
    ensures var units := Shown(h, 'h') + Shown(m, 'm') + Shown(s, 's');
      Raw(h, m, s) == Join(units, ' ') + (if s <= 0 && units != [] then " " else "")
  {
    var front := Shown(h, 'h') + Shown(m, 'm');
    FrontIsJoin(h, m);
    if s > 0 {
      var S := DecimalString(s) + "s";
      if front != [] {
        JoinSnoc(front, S, ' ');
      }
    } else {
      assert Shown(s, 's') == [] && front + [] == front;
    }
  }

  /** The hours and minutes part of the template: the join of those shown, then a space. */
  lemma FrontIsJoin(h: int, m: int)
    ensures var front := Shown(h, 'h') + Shown(m, 'm');
      Piece(h, "h ") + Piece(m, "m ") == if front == [] then "" else Join(front, ' ') + " "
  {
    if h > 0 && m > 0 {
      var H, M := DecimalString(h) + "h", DecimalString(m) + "m";
      assert [H, M][1..] == [M];
      assert Join([H, M], ' ') == H + " " + M;
    }
  }

  lemma {:induction false} JoinSnoc(parts: seq<string>, last: string, sep: char)
    requires parts != []
    ensures Join(parts + [last], sep) == Join(parts, sep) + [sep] + last
  {
    if |parts| > 1 {
      assert (parts + [last])[1..] == parts[1..] + [last];
      JoinSnoc(parts[1..], last, sep);
    } else {
      assert (parts + [last])[1..] == [last];
    }
  }

  /** The joined components start with a digit and end with a unit letter. */
  lemma JoinShape(h: int, m: int, s: int)
    requires h > 0 || m > 0 || s > 0
    ensures var j := Join(Shown(h, 'h') + Shown(m, 'm') + Shown(s, 's'), ' ');
      j != [] && !IsWhitespace(j[0]) && !IsWhitespace(j[|j| - 1])
  {
    var units := Shown(h, 'h') + Shown(m, 'm') + Shown(s, 's');
    var H, M, S := Shown(h, 'h'), Shown(m, 'm'), Shown(s, 's');
    ShownToken(h, 'h');
    ShownToken(m, 'm');
    ShownToken(s, 's');
    forall i | 0 <= i < |units| ensures units[i] != [] {
      assert units[i] in H || units[i] in M || units[i] in S;
    }
    JoinEnds(units, ' ');
    var first, last := units[0], units[|units| - 1];
    assert first in H || first in M || first in S;
    assert last in H || last in M || last in S;
    NotWhitespace(first[0]);
    NotWhitespace(last[|last| - 1]);
  }

  lemma NotWhitespace(c: char)
    requires IsDigit(c) || c == 'h' || c == 'm' || c == 's'
    ensures !IsWhitespace(c)
  {
  }

  /** A shown component is a digit, possibly more, then its unit letter. */
  lemma ShownToken(n: int, unit: char)
    ensures forall t :: t in Shown(n, unit) ==> |t| >= 2 && IsDigit(t[0]) && t[|t| - 1] == unit
  {
  }

  /** A join starts with the first part's first character and ends with the last part's last. */
  lemma {:induction false} JoinEnds(parts: seq<string>, sep: char)
    requires parts != [] && forall i :: 0 <= i < |parts| ==> parts[i] != []
    ensures var j := Join(parts, sep);
      j != [] && j[0] == parts[0][0] && j[|j| - 1] == parts[|parts| - 1][|parts[|parts| - 1]| - 1]
  {
    if |parts| > 1 {
      var rest := parts[1..];
      JoinEnds(rest, sep);
      assert Join(parts, sep) == parts[0] + [sep] + Join(rest, sep);
      assert rest[|rest| - 1] == parts[|parts| - 1];
    }
  }

  /** Zero and negative counts render as "0s". */
  lemma FormatNonPositive(seconds: int)
    requires seconds <= 0
    ensures FormatDuration(seconds) == "0s"
  {
    assert Hours(seconds) <= 0 && Minutes(seconds) <= 0 && Secs(seconds) <= 0;
    assert Units(seconds) == [];
    FormatJoinsUnits(seconds);
  }

  /** Under a minute only the seconds are shown. */
  lemma FormatUnderMinute(seconds: int)
    requires 0 < seconds < 60
    ensures FormatDuration(seconds) == DecimalString(seconds) + "s"
  {
    assert Hours(seconds) == 0 && Minutes(seconds) == 0 && Secs(seconds) == seconds;
    assert Units(seconds) == [DecimalString(seconds) + "s"];
    FormatJoinsUnits(seconds);
  }

  // ----- Reading a rendering back -----

  function UnitSeconds(u: char): Option<int> {
    if u == 'h' then Some(3600) else if u == 'm' then Some(60) else if u == 's' then Some(1) else None
  }

  /** "12m" denotes 720 seconds. */
  function ParseUnit(token: string): Option<int> {
    if |token| >= 2 && IsDigits(token[..|token| - 1]) && UnitSeconds(token[|token| - 1]).Some? then
      Some(DecimalValue(token[..|token| - 1]) * UnitSeconds(token[|token| - 1]).value)
    else None
  }

  function ParseUnits(tokens: seq<string>): Option<int> {
    if tokens == [] then Some(0)
    else
      var head, rest := ParseUnit(tokens[0]), ParseUnits(tokens[1..]);
      if head.Some? && rest.Some? then Some(head.value + rest.value) else None
  }

  /** The number of seconds a rendering such as "1h 2m 3s" denotes. */
  function ParseDuration(text: string): Option<int> {
    ParseUnits(Split(text, ' '))
  }

  /** A shown component contains no space and reads back as its number of seconds. */
  lemma ParseShown(n: int, u: char, k: int)
    requires n >= 0 && UnitSeconds(u) == Some(k)
    ensures SpaceFree(Shown(n, u))
    ensures ParseUnits(Shown(n, u)) == Some(n * k)
  {
    if n > 0 {
      var t := DecimalString(n) + [u];
      assert t[..|t| - 1] == DecimalString(n);
      DecimalRoundTrip(n);
      forall i | 0 <= i < |t| ensures t[i] != ' ' {
        if i < |t| - 1 {
          assert t[i] == DecimalString(n)[i];
        }
      }
      assert ParseUnits([t]) == Some(n * k + 0);
    }
  }

  /** "0s" reads back as zero seconds. */
  lemma ParseZero()
    ensures ParseDuration("0s") == Some(0)
  {
    SplitNoSeparator("0s", ' ');
    assert "0s"[..1] == "0" && "0"[..0] == "";
    assert DecimalValue("0") == 0;
    assert ParseUnit("0s") == Some(0);
    assert ParseUnits(["0s"]) == Some(0 + 0);
  }

  /** The shown components contain no space and add up to the count they come from. */
  lemma ParseUnitsOfUnits(seconds: int)
    requires seconds >= 0
    ensures SpaceFree(Units(seconds))
    ensures ParseUnits(Units(seconds)) == Some(seconds)
  {
    DurationDecomposition(seconds);
    ParseShownAll(Hours(seconds), Minutes(seconds), Secs(seconds));
    ShownSpaceFree(Hours(seconds), Minutes(seconds), Secs(seconds));
  }

  lemma ParseShownAll(h: int, m: int, s: int)
    requires h >= 0 && m >= 0 && s >= 0
    ensures ParseUnits(Shown(h, 'h') + Shown(m, 'm') + Shown(s, 's')) == Some(h * 3600 + m * 60 + s)
  {
    var uh, um, us := Shown(h, 'h'), Shown(m, 'm'), Shown(s, 's');
    ParseShown(h, 'h', 3600);
    ParseShown(m, 'm', 60);
    ParseShown(s, 's', 1);
    ParseUnitsThree(uh, um, us);
  }

  lemma ParseUnitsThree(a: seq<string>, b: seq<string>, c: seq<string>)
    requires ParseUnits(a).Some? && ParseUnits(b).Some? && ParseUnits(c).Some?
    ensures ParseUnits(a + b + c) == Some(ParseUnits(a).value + ParseUnits(b).value + ParseUnits(c).value)
  {
    var ab := a + b;
    ParseUnitsAppend(a, b);
    ParseUnitsAppend(ab, c);
  }

  lemma ShownSpaceFree(h: int, m: int, s: int)
    requires h >= 0 && m >= 0 && s >= 0
    ensures SpaceFree(Shown(h, 'h') + Shown(m, 'm') + Shown(s, 's'))
  {
    var uh, um, us := Shown(h, 'h'), Shown(m, 'm'), Shown(s, 's');
    ParseShown(h, 'h', 3600);
    ParseShown(m, 'm', 60);
    ParseShown(s, 's', 1);
    SpaceFreeAppend(uh, um);
    SpaceFreeAppend(uh + um, us);
  }

  /** No token contains a space. */
  predicate SpaceFree(tokens: seq<string>) {
    forall i :: 0 <= i < |tokens| ==> ' ' !in tokens[i]
  }

  lemma SpaceFreeAppend(a: seq<string>, b: seq<string>)
    requires SpaceFree(a) && SpaceFree(b)
    ensures SpaceFree(a + b)
  {
    forall i | 0 <= i < |a + b| ensures ' ' !in (a + b)[i] {
      if i >= |a| {
        assert (a + b)[i] == b[i - |a|];
      }
    }
  }

  /** Reading a rendering back gives the number of seconds it was made from. */
  lemma FormatRoundTrip(seconds: int)
    requires seconds >= 0
    ensures ParseDuration(FormatDuration(seconds)) == Some(seconds)
  {
    FormatJoinsUnits(seconds);
    ParseUnitsOfUnits(seconds);
    var units := Units(seconds);
    if units == [] {
      ParseZero();
      assert seconds == 0;
    } else {
      SplitJoin(units, ' ');
    }
  }

  lemma {:induction false} ParseUnitsAppend(a: seq<string>, b: seq<string>)
    requires ParseUnits(a).Some? && ParseUnits(b).Some?
    ensures ParseUnits(a + b) == Some(ParseUnits(a).value + ParseUnits(b).value)
  {
    if a != [] {
      assert (a + b)[1..] == a[1..] + b;
      ParseUnitsAppend(a[1..], b);
    } else {
      assert a + b == b;
    }
  }

  // ----- The ledger as the popup holds it -----

  /** A runtime message; only `updateSiteDuration` messages are acted on. */
  datatype Message = Message(kind: string, hostname: string, timeSpent: int)

  /** `handleMessage`: add the reported seconds to the site's entry. */
  function HandleMessage(prev: map<string, int>, message: Message): (r: map<string, int>)
    ensures message.kind != "updateSiteDuration" ==> r == prev
    ensures message.kind == "updateSiteDuration" ==>
      && r.Keys == prev.Keys + {message.hostname}
      && r[message.hostname] == Background.Lookup(prev, message.hostname) + message.timeSpent
    ensures forall site :: site in prev && site != message.hostname ==> site in r && r[site] == prev[site]
  {
    if message.kind == "updateSiteDuration" then
      prev[message.hostname := Background.Lookup(prev, message.hostname) + message.timeSpent]
    else prev
  }

  /** For a named site and a positive time the message performs the same update as the
    * background tracker's flush. */
  lemma MessageMatchesFlush(prev: map<string, int>, hostname: string, timeSpent: int)
    requires hostname != "" && timeSpent > 0
    ensures HandleMessage(prev, Message("updateSiteDuration", hostname, timeSpent))
         == Background.AddDuration(prev, Some(hostname), timeSpent)
  {
  }

  // ----- sortedSites -----

  predicate NonIncreasing(entries: seq<(string, int)>) {
    forall i, j :: 0 <= i < j < |entries| ==> entries[i].1 >= entries[j].1
  }

  /** Insert `e` in front of the first entry whose duration is not larger. */
  function Insert(e: (string, int), sorted: seq<(string, int)>): (r: seq<(string, int)>)
    requires NonIncreasing(sorted)
    ensures NonIncreasing(r)
    ensures multiset(r) == multiset(sorted) + multiset{e}
    ensures |r| == |sorted| + 1
    ensures r[0] == e || (sorted != [] && r[0] == sorted[0])
  {
    if sorted == [] || e.1 >= sorted[0].1 then
      ConsNonIncreasing(e, sorted);
      [e] + sorted
    else
      var rest := Insert(e, sorted[1..]);
      assert sorted == [sorted[0]] + sorted[1..];
      assert multiset(sorted) == multiset{sorted[0]} + multiset(sorted[1..]);
      assert multiset([sorted[0]] + rest) == multiset{sorted[0]} + multiset(rest);
      ConsNonIncreasing(sorted[0], rest);
      [sorted[0]] + rest
  }

  /** An entry at least as long as the head of a non-increasing list can go in front. */
  lemma ConsNonIncreasing(x: (string, int), s: seq<(string, int)>)
    requires NonIncreasing(s) && (s == [] || x.1 >= s[0].1)
    ensures NonIncreasing([x] + s)
  {
    var r := [x] + s;
    forall i, j | 0 <= i < j < |r| ensures r[i].1 >= r[j].1 {
      if i == 0 {
        assert r[j] == s[j - 1];
      } else {
        assert r[i] == s[i - 1] && r[j] == s[j - 1];
      }
    }
  }

  /** `Object.entries(siteDurations).sort(([, a], [, b]) => b - a)`: longest first. */
  function SortedSites(entries: seq<(string, int)>): (r: seq<(string, int)>)
    ensures NonIncreasing(r)
    ensures multiset(r) == multiset(entries)
  {
    if entries == [] then []
    else
      assert entries == [entries[0]] + entries[1..];
      Insert(entries[0], SortedSites(entries[1..]))
  }

  /** `entries` lists the map's entries, each exactly once (what `Object.entries` returns). */
  ghost predicate ListsEntries(m: map<string, int>, entries: seq<(string, int)>) {
    && |entries| == |m|
    && (forall i :: 0 <= i < |entries| ==> entries[i].0 in m && m[entries[i].0] == entries[i].1)
    && (forall site :: site in m ==> (site, m[site]) in entries)
  }

  /** The sorted list still lists every site of the ledger with its duration. */
  lemma SortedSitesListsLedger(m: map<string, int>, entries: seq<(string, int)>)
    requires ListsEntries(m, entries)
    ensures ListsEntries(m, SortedSites(entries))
  {
    var r := SortedSites(entries);
    assert |r| == |multiset(r)| == |multiset(entries)| == |entries|;
    forall i | 0 <= i < |r| ensures r[i].0 in m && m[r[i].0] == r[i].1 {
      assert r[i] in multiset(entries);
    }
    forall site | site in m ensures (site, m[site]) in r {
      assert (site, m[site]) in multiset(r);
    }
  }
}
