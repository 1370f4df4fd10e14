/** The event hooks: turning fetched event documents into events, keeping
    only the events a user belongs to, looking events up by the first four
    characters of their id, and the loading and error state the two hooks
    keep while doing so. The document snapshot is an input. */
module Events {
  import opened JsValues
  import opened JsStrings

  const LoadFailedMessage := "Failed to load events"
  const SearchFailedMessage := "Failed to search events"

  /** The length of an event-code prefix the search accepts. */
  const SearchPrefixLength := 4

  datatype Event = Event(id: string, name: string, description: string, members: seq<string>)

  /** A fetched document: its id and whichever of the fields it holds. */
  datatype EventDoc = EventDoc(
    id: string,
    name: Option<string>,
    description: Option<string>,
    members: Option<seq<string>>)

  // ---------------------------------------------------------------------
  // From documents to events

  /** The event a document is read as: a missing name or description reads
      as the empty text and missing members as no members. */
  function ToEvent(doc: EventDoc): (e: Event)
    ensures e.id == doc.id
    ensures e.name == (if doc.name.Some? then doc.name.value else "")
    ensures e.description == (if doc.description.Some? then doc.description.value else "")
    ensures e.members == (if doc.members.Some? then doc.members.value else [])
  {
    Event(doc.id,
          match doc.name case Some(n) => n case None => "",
          match doc.description case Some(d) => d case None => "",
          match doc.members case Some(m) => m case None => [])
  }

  /** The document that holds every field of `e`. */
  function FullDoc(e: Event): EventDoc
  {
    EventDoc(e.id, Some(e.name), Some(e.description), Some(e.members))
  }

  /** A document holding every field reads back as the event it was written
      from, and one holding none reads as an event with empty fields. */
  lemma ToEventOfFullDoc(e: Event, id: string)
    ensures ToEvent(FullDoc(e)) == e
    ensures ToEvent(EventDoc(id, None, None, None)) == Event(id, "", "", [])
  {
  }

  /** Every document of the snapshot, in order, read as an event. */
  function ToEvents(docs: seq<EventDoc>): (events: seq<Event>)
    ensures |events| == |docs|
    ensures forall i :: 0 <= i < |docs| ==> events[i] == ToEvent(docs[i])
  {
    seq(|docs|, i requires 0 <= i < |docs| => ToEvent(docs[i]))
  }

  // ---------------------------------------------------------------------
  // Public keys

  /** `normalizePublicKey`: lower-case, then trim. */
  function NormalizePublicKey(key: string): (k: string)
    ensures |k| > 0 ==> !IsWhitespace(k[0]) && !IsWhitespace(k[|k| - 1])
    ensures forall i :: 0 <= i < |k| ==> LowerChar(k[i]) == k[i]
  {
    var lowered := ToLower(key);
    TrimKeepsLowered(lowered);
    Trim(lowered)
  }

  /** A string every character of which is already lower case is its own
      lower-case form. */
  lemma ToLowerOfLowered(s: string)
    requires forall i :: 0 <= i < |s| ==> LowerChar(s[i]) == s[i]
    ensures ToLower(s) == s
  {
  }

  /** Normalizing a normalized key changes nothing. */
  lemma NormalizeIdempotent(key: string)
    ensures NormalizePublicKey(NormalizePublicKey(key)) == NormalizePublicKey(key)
  {
    var k := NormalizePublicKey(key);
    ToLowerOfLowered(k);
    TrimOfTrimmed(k);
    calc {
      NormalizePublicKey(k);
      Trim(ToLower(k));
      Trim(k);
      k;
    }
  }

  /** Keys that differ only in surrounding whitespace normalize alike. */
  lemma NormalizeIgnoresPadding(a: string, key: string, b: string)
    requires forall i :: 0 <= i < |a| ==> IsWhitespace(a[i])
    requires forall i :: 0 <= i < |b| ==> IsWhitespace(b[i])
    ensures NormalizePublicKey(a + key + b) == NormalizePublicKey(key)
  {
    assert ToLower(a + key + b) == a + ToLower(key) + b;
    PaddedTrim(a, ToLower(key), b);
  }

  /** Trimming ignores whitespace added on both sides. */
  lemma PaddedTrim(a: string, s: string, b: string)
    requires forall i :: 0 <= i < |a| ==> IsWhitespace(a[i])
    requires forall i :: 0 <= i < |b| ==> IsWhitespace(b[i])
    ensures Trim(a + s + b) == Trim(s)
  {
    assert a + s + b == a + (s + b);
    TrimStartBlankPrefix(a, s + b);
    if TrimStart(s) != [] {
      TrimStartAppend(s, b);
      TrimEndAppend(TrimStart(s), b);
    } else {
      TrimStartBlankAppend(s, b);
    }
  }

  /** Leading whitespace is trimmed away. */
  lemma {:induction false} TrimStartBlankPrefix(a: string, x: string)
    requires forall i :: 0 <= i < |a| ==> IsWhitespace(a[i])
    ensures TrimStart(a + x) == TrimStart(x)
    decreases |a|
  {
    if |a| > 0 {
      assert (a + x)[1..] == a[1..] + x;
      TrimStartBlankPrefix(a[1..], x);
    } else {
      assert a + x == x;
    }
  }

  /** Trimming the start of `s + w` for a non-blank `s` trims the start of `s`. */
  lemma {:induction false} TrimStartAppend(s: string, w: string)
    requires TrimStart(s) != []
    ensures TrimStart(s + w) == TrimStart(s) + w
    decreases |s|
  {
    if |s| > 0 && IsWhitespace(s[0]) {
      assert (s + w)[1..] == s[1..] + w;
      TrimStartAppend(s[1..], w);
    }
  }

  /** A blank `s` leaves only `w` to trim. */
  lemma {:induction false} TrimStartBlankAppend(s: string, w: string)
    requires TrimStart(s) == []
    ensures TrimStart(s + w) == TrimStart(w)
    decreases |s|
  {
    if |s| > 0 {
      assert (s + w)[1..] == s[1..] + w;
      TrimStartBlankAppend(s[1..], w);
    } else {
      assert s + w == w;
    }
  }

  /** Trailing whitespace added to `s` is trimmed away again. */
  lemma {:induction false} TrimEndAppend(s: string, w: string)
    requires forall i :: 0 <= i < |w| ==> IsWhitespace(w[i])
    ensures TrimEnd(s + w) == TrimEnd(s)
    decreases |w|
  {
    if |w| > 0 {
      assert (s + w)[..|s + w| - 1] == s + w[..|w| - 1];
      TrimEndAppend(s, w[..|w| - 1]);
    } else {
      assert s + w == s;
    }
  }

  // ---------------------------------------------------------------------
  // Membership filter

  /** `xs.some(test)`, scanning from the first element. */
  function Any<T(!new)>(xs: seq<T>, test: T -> bool): (found: bool)
    ensures found <==> exists i :: 0 <= i < |xs| && test(xs[i])
  {
    if xs == [] then false
    else
      var inRest := Any(xs[1..], test);
      assert forall i :: 1 <= i < |xs| ==> xs[i] == xs[1..][i - 1];
      test(xs[0]) || inRest
  }

  /** The test `.some` applies to each member: its normal form is the
      user's. */
  function KeyTest(normalizedUserKey: string): string -> bool
  {
    m => NormalizePublicKey(m) == normalizedUserKey
  }

  /** The user, known by `userKey`, is one of the event's members once both
      keys are normalized. */
  predicate IsMember(e: Event, userKey: string)
  {
    Any(e.members, KeyTest(NormalizePublicKey(userKey)))
  }

  /** Membership spelled out: some member normalizes to the user's key. */
  lemma IsMemberMeans(e: Event, userKey: string)
    ensures IsMember(e, userKey) <==>
      exists i :: 0 <= i < |e.members| && NormalizePublicKey(e.members[i]) == NormalizePublicKey(userKey)
  {
  }

  /** The test `fetchEvents` filters with. */
  function MemberTest(userKey: string): Event -> bool
  {
    e => IsMember(e, userKey)
  }

  /** `xs.filter(keep)`. */
  function Filter<T(==,!new)>(xs: seq<T>, keep: T -> bool): (kept: seq<T>)
    ensures |kept| <= |xs|
    ensures forall x :: x in kept <==> x in xs && keep(x)
    ensures forall x :: multiset(kept)[x] == if keep(x) then multiset(xs)[x] else 0
  {
    if xs == [] then []
    else
      assert xs == [xs[0]] + xs[1..];
      (if keep(xs[0]) then [xs[0]] else []) + Filter(xs[1..], keep)
  }

  /** `a` is `b` with some of its elements left out. */
  predicate IsSubsequence<T(==)>(a: seq<T>, b: seq<T>)
    decreases |b|
  {
    if a == [] then true
    else if b == [] then false
    else (a[0] == b[0] && IsSubsequence(a[1..], b[1..])) || IsSubsequence(a, b[1..])
  }

  /** Filtering keeps the order of what it keeps. */
  lemma {:induction false} FilterIsSubsequence<T(!new)>(xs: seq<T>, keep: T -> bool)
    ensures IsSubsequence(Filter(xs, keep), xs)
  {
    if xs != [] {
      FilterIsSubsequence(xs[1..], keep);
      var rest := Filter(xs[1..], keep);
      if keep(xs[0]) {
        assert Filter(xs, keep) == [xs[0]] + rest;
        assert ([xs[0]] + rest)[1..] == rest;
      } else {
        assert Filter(xs, keep) == rest;
      }
    }
  }

  /** The events `fetchEvents` keeps for `userPublicKey`: all of them when
      no key (or the empty key) is given, otherwise those with the user
      among their members. */
  function VisibleEvents(docs: seq<EventDoc>, userPublicKey: Option<string>): (visible: seq<Event>)
    ensures |visible| <= |docs|
    ensures forall e :: e in visible ==> e in ToEvents(docs)
    ensures userPublicKey.Some? && userPublicKey.value != "" ==>
              forall e :: e in visible ==> IsMember(e, userPublicKey.value)
  {
    var events := ToEvents(docs);
    if userPublicKey.Some? && userPublicKey.value != "" then
      Filter(events, MemberTest(userPublicKey.value))
    else events
  }

  /** Without a user key every fetched event is kept, in fetched order. */
  lemma UnfilteredWithoutKey(docs: seq<EventDoc>, userPublicKey: Option<string>)
    requires userPublicKey == None || userPublicKey == Some("")
    ensures VisibleEvents(docs, userPublicKey) == ToEvents(docs)
  {
  }

  /** With a user key the result holds exactly the fetched events that have
      the user among their members, each as often as it was fetched, in
      fetched order. */
  lemma VisibleEventsAreMemberships(docs: seq<EventDoc>, userKey: string)
    requires userKey != ""
    ensures var visible := VisibleEvents(docs, Some(userKey));
      && (forall e :: e in visible <==> e in ToEvents(docs) && IsMember(e, userKey))
      && (forall e :: multiset(visible)[e] == if IsMember(e, userKey) then multiset(ToEvents(docs))[e] else 0)
      && IsSubsequence(visible, ToEvents(docs))
  {
    var events, keep := ToEvents(docs), MemberTest(userKey);
    assert VisibleEvents(docs, Some(userKey)) == Filter(events, keep);
    FilterIsSubsequence(events, keep);
  }

  /** Matching ignores surrounding whitespace on the member side: a member
      listed as the user's key with whitespace around it still counts. */
  lemma PaddedMemberStillMatches(e: Event, userKey: string, i: nat, a: string, b: string)
    requires forall k :: 0 <= k < |a| ==> IsWhitespace(a[k])
    requires forall k :: 0 <= k < |b| ==> IsWhitespace(b[k])
    requires i < |e.members| && e.members[i] == a + userKey + b
    ensures IsMember(e, userKey)
  {
    NormalizeIgnoresPadding(a, userKey, b);
    assert KeyTest(NormalizePublicKey(userKey))(e.members[i]);
  }

  // ---------------------------------------------------------------------
  // Search by id prefix

  /** Whether `searchEventsByIdPrefix` queries the snapshot for `prefix`. */
  predicate SearchablePrefix(prefix: string)
  {
    |prefix| == SearchPrefixLength
  }

  /** The test the search filters with. */
  function IdPrefixTest(prefix: string): Event -> bool
  {
    (e: Event) => StartsWith(e.id, prefix)
  }

  /** The events a search for `prefix` returns. */
  function SearchMatches(docs: seq<EventDoc>, prefix: string): (found: seq<Event>)
    ensures |found| <= |docs|
    ensures forall e :: e in found ==> e in ToEvents(docs) && StartsWith(e.id, prefix)
  {
    Filter(ToEvents(docs), IdPrefixTest(prefix))
  }

  /** The search result holds exactly the fetched events whose id starts
      with the prefix, each as often as it was fetched, in fetched order. */
  lemma SearchMatchesArePrefixMatches(docs: seq<EventDoc>, prefix: string)
    ensures var found := SearchMatches(docs, prefix);
      && (forall e :: e in found <==> e in ToEvents(docs) && StartsWith(e.id, prefix))
      && (forall e :: multiset(found)[e] == if StartsWith(e.id, prefix) then multiset(ToEvents(docs))[e] else 0)
      && IsSubsequence(found, ToEvents(docs))
  {
    FilterIsSubsequence(ToEvents(docs), IdPrefixTest(prefix));
  }

  /** A document whose id extends the prefix is found, with its defaults
      filled in, and one whose id does not is not. */
  lemma SearchFindsCode(prefix: string, rest: string, other: string)
    requires !StartsWith(other, prefix)
    ensures SearchMatches([EventDoc(prefix + rest, None, Some("d"), None), EventDoc(other, None, None, None)], prefix)
            == [Event(prefix + rest, "", "d", [])]
  {
    var docs := [EventDoc(prefix + rest, None, Some("d"), None), EventDoc(other, None, None, None)];
    assert (prefix + rest)[..|prefix|] == prefix;
    assert ToEvents(docs)[1..] == [Event(other, "", "", [])];
  }

  // ---------------------------------------------------------------------
  // The hooks' state

  /** The state of `useEvents(userPublicKey)`. */
  class EventsState {
    const userPublicKey: Option<string>
    var events: seq<Event>
    var loading: bool
    var error: Option<string>

    constructor(userPublicKey: Option<string>)
      ensures this.userPublicKey == userPublicKey
      ensures events == [] && loading && error == None
    {
      this.userPublicKey := userPublicKey;
      events := [];
      loading := true;
      error := None;
    }

    /** `fetchEvents`, given how reading the events collection settled. */
    method FetchEvents(snapshot: Call<seq<EventDoc>>)
      modifies this
      ensures !loading
      ensures snapshot.Returned? ==> events == VisibleEvents(snapshot.value, userPublicKey) && error == None
      ensures snapshot.Threw? ==> events == old(events) && error == Some(LoadFailedMessage)
    {
      loading := true;
      match snapshot {
        case Returned(docs) =>
          var eventsData := ToEvents(docs);
          if userPublicKey.Some? && userPublicKey.value != "" {
            var key := userPublicKey.value;
            eventsData := Filter(eventsData, MemberTest(key));
          }
          events := eventsData;
          error := None;
        case Threw(_) =>
          error := Some(LoadFailedMessage);
      }
      loading := false;
    }
  }

  /** The state of `useEventSearch`. */
  class EventSearchState {
    var searchResults: seq<Event>
    var searching: bool
    var searchError: Option<string>

    constructor()
      ensures searchResults == [] && !searching && searchError == None
    {
      searchResults := [];
      searching := false;
      searchError := None;
    }

    /** `searchEventsByIdPrefix(prefix)`, given how reading the events
        collection settles if it is read; `fetched` tells whether it is. */
    method SearchEventsByIdPrefix(prefix: string, snapshot: Call<seq<EventDoc>>) returns (fetched: bool)
      modifies this
      ensures fetched <==> SearchablePrefix(prefix)
      ensures !fetched ==> searchResults == [] && searchError == None && searching == old(searching)
      ensures fetched ==> !searching
      ensures fetched && snapshot.Returned? ==>
                searchResults == SearchMatches(snapshot.value, prefix) && searchError == None
      ensures fetched && snapshot.Threw? ==>
                searchResults == old(searchResults) && searchError == Some(SearchFailedMessage)
    {
      if prefix == "" || |prefix| != SearchPrefixLength {
        searchResults := [];
        searchError := None;
        return false;
      }
      searching := true;
      searchError := None;
      match snapshot {
        case Returned(docs) =>
          var matchingEvents := Filter(ToEvents(docs), IdPrefixTest(prefix));
          searchResults := matchingEvents;
        case Threw(_) =>
          searchError := Some(SearchFailedMessage);
      }
      searching := false;
      return true;
    }
  }
}
