/** The registry notification filter: which events of a notification the
    core service acts on (manifest pushes and pulls, except pulls made by
    Harbor's own registry client), and the user name recorded for an event.
    The follow-up actions of the handler (access log, repository record,
    replication, scan, pull count) are left out. */
module RegistryEvents {
  import opened Wrappers
  import opened Text

  /** The fields of a registry event that the filter and the handler read. */
  datatype Event = Event(
    id: string,
    action: string,
    mediaType: string,
    userAgent: string,
    actorName: string,
    repository: string,
    tag: string)

  const RegistryClientAgent: string := "harbor-registry-client"
  const AnonymousUser: string := "anonymous"

  // ---------------------------------------------------------------------
  // The manifest media-type pattern
  // ---------------------------------------------------------------------

  /** One position of the pattern: a literal character, `.` (any character
      but a newline) or `\d` (an ASCII digit). */
  datatype PatternChar = Lit(c: char) | AnyChar | Digit

  predicate CharMatches(p: PatternChar, c: char) {
    match p
    case Lit(l) => c == l
    case AnyChar => c != '\n'
    case Digit => IsDigit(c)
  }

  /** Regular-expression text whose only metacharacter is `.`: each dot a
      wild card, every other character itself. */
  function Pattern(text: string): (r: seq<PatternChar>)
    ensures |r| == |text|
  {
    seq(|text|, i requires 0 <= i < |text| => if text[i] == '.' then AnyChar else Lit(text[i]))
  }

  /** `s` starts with a string matched by the pattern sequence `p`. */
  predicate PrefixMatches(p: seq<PatternChar>, s: string) {
    |p| <= |s| && forall i :: 0 <= i < |p| ==> CharMatches(p[i], s[i])
  }

  const ManifestStemText: string := "application/vnd.docker.distribution.manifest.v"

  /** The manifest pattern up to its final group: the text above, then `\d`
      (one digit) and `\+` (a literal plus sign). */
  const ManifestStem: seq<PatternChar> := Pattern(ManifestStemText) + [Digit, Lit('+')]

  /** The manifest pattern is anchored at the start only, so a media type
      matches when it starts with the stem followed by "json" or by
      "prettyjws". */
  predicate IsManifestMediaType(mediaType: string) {
    PrefixMatches(ManifestStem + Pattern("json"), mediaType)
    || PrefixMatches(ManifestStem + Pattern("prettyjws"), mediaType)
  }

  /** The media-type match as the handler calls it. The pattern is a
      constant that compiles, so this matcher never reports an error; the
      filter still handles matchers that do. */
  function ManifestMatcher(mediaType: string): (r: Result<bool, string>)
    ensures r.Ok? && (r.value <==> IsManifestMediaType(mediaType))
  {
    Ok(IsManifestMediaType(mediaType))
  }

  /** A text read as a pattern matches itself. */
  lemma PatternMatchesItsText(text: string)
    ensures PrefixMatches(Pattern(text), text)
  {
  }

  /** Every schema-2 style manifest type "...manifest.v<digit>+json..."
      matches, whatever follows. */
  lemma {:induction false} ManifestTypesMatch(d: char, rest: string)
    requires IsDigit(d)
    ensures IsManifestMediaType(ManifestStemText + [d, '+'] + "json" + rest)
  {
    var s := ManifestStemText + [d, '+'] + "json" + rest;
    var p := ManifestStem + Pattern("json");
    PatternMatchesItsText(ManifestStemText);
    PatternMatchesItsText("json");
    forall i | 0 <= i < |p| ensures CharMatches(p[i], s[i]) {
      if i < |ManifestStemText| {
        assert p[i] == Pattern(ManifestStemText)[i];
        assert s[i] == ManifestStemText[i];
      } else if i >= |ManifestStemText| + 2 {
        assert p[i] == Pattern("json")[i - |ManifestStemText| - 2];
        assert s[i] == "json"[i - |ManifestStemText| - 2];
      }
    }
  }

  lemma SchemaTwoManifestMatches()
    ensures IsManifestMediaType("application/vnd.docker.distribution.manifest.v2+json")
  {
    ManifestTypesMatch('2', "");
    assert ManifestStemText + ['2', '+'] + "json" + ""
        == "application/vnd.docker.distribution.manifest.v2+json";
  }

  /** An image configuration blob and a manifest list are not manifests to
      this filter. */
  lemma OtherMediaTypesDoNotMatch()
    ensures !IsManifestMediaType("application/vnd.docker.container.image.v1+json")
    ensures !IsManifestMediaType("application/vnd.docker.distribution.manifest.list.v2+json")
  {
    var s := "application/vnd.docker.container.image.v1+json";
    assert ManifestStem[23] == Lit('d') && s[23] == 'c';
    var t := "application/vnd.docker.distribution.manifest.list.v2+json";
    assert ManifestStem[45] == Lit('v') && t[45] == 'l';
  }

  // ---------------------------------------------------------------------
  // checkEvent
  // ---------------------------------------------------------------------

  /** The user agent as compared: trimmed and lower-cased. */
  function NormalizedAgent(e: Event): string {
    ToLower(TrimSpace(e.userAgent))
  }

  /** A push is always accepted; a pull only when it does not come from
      Harbor's registry client; nothing else is. */
  function CheckEvent(e: Event): (r: bool)
    ensures e.action == "push" ==> r
    ensures e.action == "pull" ==> (r <==> NormalizedAgent(e) != RegistryClientAgent)
    ensures e.action != "push" && e.action != "pull" ==> !r
  {
    if NormalizedAgent(e) != RegistryClientAgent && (e.action == "pull" || e.action == "push") then true
    else if NormalizedAgent(e) == RegistryClientAgent && e.action == "push" then true
    else false
  }

  /** White space around the user agent makes no difference. */
  lemma CheckEventIgnoresPadding(e: Event, p: string, q: string)
    requires AllSpace(p) && AllSpace(q)
    ensures CheckEvent(e.(userAgent := p + e.userAgent + q)) == CheckEvent(e)
  {
    TrimSpaceIgnoresPadding(p, e.userAgent, q);
  }

  /** Neither does the letter case of the user agent. */
  lemma CheckEventIgnoresCase(e: Event, agent: string)
    requires EqualFold(agent, e.userAgent)
    ensures CheckEvent(e.(userAgent := agent)) == CheckEvent(e)
  {
    TrimSpaceKeepsFold(agent, e.userAgent);
    EqualFoldIsLowerEquality(TrimSpace(agent), TrimSpace(e.userAgent));
  }

  // ---------------------------------------------------------------------
  // filterEvents
  // ---------------------------------------------------------------------

  /** An event is kept when its media type matches without error and it
      passes checkEvent. */
  predicate Accepted(e: Event, matcher: string -> Result<bool, string>) {
    matcher(e.mediaType) == Ok(true) && CheckEvent(e)
  }

  /** The positions, below `n`, of the true flags, in order. */
  function Positions(flags: seq<bool>, n: nat): seq<nat>
    requires n <= |flags|
  {
    if n == 0 then [] else Positions(flags, n - 1) + (if flags[n - 1] then [n - 1] else [])
  }

  /** The positions are increasing, and a position is among them exactly
      when its flag is set. */
  lemma {:induction false} PositionsExact(flags: seq<bool>, n: nat)
    requires n <= |flags|
    ensures var ps := Positions(flags, n);
            && (forall j :: 0 <= j < |ps| ==> ps[j] < n)
            && (forall j, k :: 0 <= j < k < |ps| ==> ps[j] < ps[k])
            && (forall i :: 0 <= i < n ==> (i in ps <==> flags[i]))
  {
    if n > 0 {
      PositionsExact(flags, n - 1);
      var prev := Positions(flags, n - 1);
      var ps := Positions(flags, n);
      assert ps == prev + (if flags[n - 1] then [n - 1] else []);
      assert n - 1 !in prev;
    }
  }

  /** Which events are accepted, position by position. */
  function AcceptedFlags(events: seq<Event>, matcher: string -> Result<bool, string>): (r: seq<bool>)
    ensures |r| == |events| && forall i :: 0 <= i < |events| ==> (r[i] <==> Accepted(events[i], matcher))
  {
    seq(|events|, i requires 0 <= i < |events| => Accepted(events[i], matcher))
  }

  /** One entry per accepted event, in input order, and none for any other. */
  lemma AcceptedPositionsExact(events: seq<Event>, matcher: string -> Result<bool, string>)
    ensures var ps := Positions(AcceptedFlags(events, matcher), |events|);
            && (forall j, k :: 0 <= j < k < |ps| ==> ps[j] < ps[k] < |events|)
            && (forall i :: 0 <= i < |events| ==> (i in ps <==> Accepted(events[i], matcher)))
  {
    PositionsExact(AcceptedFlags(events, matcher), |events|);
  }

  /** The range loop over the notification's events. The Go code collects
      pointers to the loop variable; the model collects the positions of
      the kept events, which is what does not depend on that aliasing. The
      error result is always nil. */
  method FilterEvents(events: seq<Event>, matcher: string -> Result<bool, string>)
    returns (kept: seq<nat>, err: Option<string>)
    ensures err == None
    ensures kept == Positions(AcceptedFlags(events, matcher), |events|)
  {
    kept := [];
    var i := 0;
    while i < |events|
      invariant 0 <= i <= |events|
      invariant kept == Positions(AcceptedFlags(events, matcher), i)
    {
      var event := events[i];
      var isManifest := matcher(event.mediaType);
      if isManifest.Err? {
        i := i + 1;
        continue;
      }
      if !isManifest.value {
        i := i + 1;
        continue;
      }
      if CheckEvent(event) {
        kept := kept + [i];
      }
      i := i + 1;
    }
    return kept, None;
  }

  /** With the handler's own matcher, the kept events are exactly the
      manifest events that pass checkEvent. */
  lemma FilterWithManifestPattern(events: seq<Event>)
    ensures var ps := Positions(AcceptedFlags(events, ManifestMatcher), |events|);
            forall i :: 0 <= i < |events| ==>
              (i in ps <==> IsManifestMediaType(events[i].mediaType) && CheckEvent(events[i]))
  {
    AcceptedPositionsExact(events, ManifestMatcher);
  }

  // ---------------------------------------------------------------------
  // The recorded user
  // ---------------------------------------------------------------------

  /** The user written to the access log: the actor's name, or "anonymous"
      when it is empty; never empty. */
  function ActorUser(e: Event): (user: string)
    ensures |user| > 0
    ensures |e.actorName| > 0 ==> user == e.actorName
    ensures |e.actorName| == 0 ==> user == AnonymousUser
  {
    if |e.actorName| == 0 then AnonymousUser else e.actorName
  }
}
