/** Reading review-status.json and choosing the observation of one pull request
    (src/client/statusWatchModel.ts). */
module StatusModel {
  import opened Common
  import opened PreciseTimes

  datatype AutoPause = AutoPause(
    agentId: string, limitId: string, usedPercentage: int, thresholdPercentage: int,
    observedAt: string, resetAt: Option<string>)

  datatype Entry = Entry(
    key: string, state: string, receivedAt: string, round: Option<int>, eventId: Option<string>,
    holdReason: Option<string>, queuePosition: Option<int>, outcome: Option<string>,
    exitCode: Option<int>, autoPause: Option<AutoPause>)

  datatype Document = Document(updatedAt: string, items: seq<Entry>, recent: seq<Entry>)

  datatype Parsed = Ok(document: Document) | Invalid | UnsupportedSchema(version: int)

  datatype PreviousRound = PreviousRound(state: string, round: Option<int>)

  datatype Observation =
    | NoEntry(previousRound: Option<PreviousRound>)
    | Active(state: string, holdReason: Option<string>, round: Option<int>, eventId: Option<string>,
             queuePosition: Option<int>, autoPause: Option<AutoPause>)
    | Finished(outcome: Option<string>, exitCode: Option<int>, round: Option<int>, eventId: Option<string>)

  const SUPPORTED_SCHEMA := 1

  // ---- Parsing ----

  function StringField(fields: map<string, Json>, name: string): Option<string> {
    match Field(fields, name)
    case Some(Str(s)) => Some(s)
    case _ => None
  }

  function NumberField(fields: map<string, Json>, name: string): Option<int> {
    match Field(fields, name)
    case Some(Num(n)) => Some(n)
    case _ => None
  }

  predicate NonEmpty(s: Option<string>) {
    s.Some? && s.value != ""
  }

  function ParseAutoPause(value: Json, host: Host): Option<AutoPause> {
    if !value.Obj? then None else
    var f := value.fields;
    var agent, limit := StringField(f, "agentId"), StringField(f, "limitId");
    var used, threshold := NumberField(f, "usedPercentage"), NumberField(f, "thresholdPercentage");
    var observed := StringField(f, "observedAt");
    if || !NonEmpty(agent) || !NonEmpty(limit) || used.None? || threshold.None?
       || observed.None? || Parse(Str(observed.value), host).None?
       || ("resetAt" in f && Parse(f["resetAt"], host).None?)
    then None
    else Some(AutoPause(agent.value, limit.value, used.value, threshold.value, observed.value, StringField(f, "resetAt")))
  }

  /** An entry that is held by auto-pause and carries details. */
  predicate CarriesDetails(value: Json) {
    && value.Obj?
    && StringField(value.fields, "state") == Some("waiting")
    && StringField(value.fields, "holdReason") == Some("autoPause")
    && "autoPause" in value.fields
  }

  function ToEntry(value: Json, host: Host): Option<Entry> {
    if !value.Obj? then None else
    var f := value.fields;
    var key, state, receivedAt := StringField(f, "key"), StringField(f, "state"), StringField(f, "receivedAt");
    if key.None? || state.None? || receivedAt.None? then None else
    Some(Entry(host.lower(key.value), state.value, receivedAt.value,
               NumberField(f, "round"), StringField(f, "eventId"), StringField(f, "holdReason"),
               NumberField(f, "queuePosition"), StringField(f, "outcome"), NumberField(f, "exitCode"),
               if CarriesDetails(value) then ParseAutoPause(f["autoPause"], host) else None))
  }

  /** The values of `f` on the elements where it has one. */
  function Collected<S, T>(values: seq<S>, f: S -> Option<T>): seq<T> {
    if values == [] then [] else
    var rest := Collected(values[..|values| - 1], f);
    match f(values[|values| - 1])
    case Some(t) => rest + [t]
    case None => rest
  }

  function EntryReader(host: Host): Json -> Option<Entry> {
    (v: Json) => ToEntry(v, host)
  }

  function ToEntries(values: seq<Json>, host: Host): seq<Entry> {
    Collected(values, EntryReader(host))
  }

  function ArrayField(fields: map<string, Json>, name: string): seq<Json> {
    match Field(fields, name)
    case Some(Arr(items)) => items
    case _ => []
  }

  predicate HasBrokenDetails(values: seq<Json>, host: Host) {
    exists v :: v in values && CarriesDetails(v) && ParseAutoPause(v.fields["autoPause"], host).None?
  }

  /** `raw` is what JSON.parse made of the file, None when it threw. */
  function ParseStatusDocument(raw: Option<Json>, host: Host): (r: Parsed)
    ensures r.Ok? ==> Parse(Str(r.document.updatedAt), host).Some?
  {
    if raw.None? || !raw.value.Obj? then Invalid else
    var f := raw.value.fields;
    var version, updatedAt := NumberField(f, "schemaVersion"), Field(f, "updatedAt");
    if version.None? || updatedAt.None? || Parse(updatedAt.value, host).None? then Invalid
    else if version.value != SUPPORTED_SCHEMA then UnsupportedSchema(version.value)
    else if HasBrokenDetails(ArrayField(f, "items"), host) || HasBrokenDetails(ArrayField(f, "recent"), host) then Invalid
    else Ok(Document(updatedAt.value.s, ToEntries(ArrayField(f, "items"), host), ToEntries(ArrayField(f, "recent"), host)))
  }

  // ---- Selection ----

  predicate Qualifies(e: Entry, key: string, after: PreciseTime, host: Host) {
    && e.key == key
    && Parse(Str(e.receivedAt), host).Some?
    && Compare(Parse(Str(e.receivedAt), host).value, after) > 0
  }

  function At(e: Entry, host: Host): PreciseTime
    requires Parse(Str(e.receivedAt), host).Some?
  {
    Parse(Str(e.receivedAt), host).value
  }

  /** The entry latestAfter settles on after reading `entries` from left to right. */
  function Latest(entries: seq<Entry>, key: string, after: PreciseTime, host: Host): (r: Option<Entry>)
    ensures r.Some? ==> Qualifies(r.value, key, after, host)
  {
    if entries == [] then None else
    var best := Latest(entries[..|entries| - 1], key, after, host);
    var e := entries[|entries| - 1];
    if Qualifies(e, key, after, host) && (best.None? || Compare(At(e, host), At(best.value, host)) > 0) then Some(e) else best
  }

  method LatestAfter(entries: seq<Entry>, key: string, after: PreciseTime, host: Host) returns (r: Option<Entry>)
    ensures r == Latest(entries, key, after, host)
  {
    var best: Option<(Entry, PreciseTime)> := None;
    for i := 0 to |entries|
      invariant best.Some? ==> Parse(Str(best.value.0.receivedAt), host) == Some(best.value.1)
      invariant Latest(entries[..i], key, after, host) == if best.Some? then Some(best.value.0) else None
    {
      assert entries[..i + 1][..i] == entries[..i];
      var entry := entries[i];
      if entry.key != key {
        continue;
      }
      var at := Parse(Str(entry.receivedAt), host);
      if at.None? || Compare(at.value, after) <= 0 {
        continue;
      }
      if best.None? || Compare(at.value, best.value.1) > 0 {
        best := Some((entry, at.value));
      }
    }
    assert entries[..|entries|] == entries;
    r := if best.Some? then Some(best.value.0) else None;
  }

  /** The instant a qualifying entry was received at; None for every other entry. */
  ghost function Stamp(e: Entry, key: string, after: PreciseTime, host: Host): Option<int> {
    if Qualifies(e, key, after, host) then Some(Nanos(At(e, host))) else None
  }

  ghost function Stamps(entries: seq<Entry>, key: string, after: PreciseTime, host: Host): (r: seq<Option<int>>)
    ensures |r| == |entries| && forall i :: 0 <= i < |r| ==> r[i] == Stamp(entries[i], key, after, host)
  {
    if entries == [] then [] else
    Stamps(entries[..|entries| - 1], key, after, host) + [Stamp(entries[|entries| - 1], key, after, host)]
  }

  /** Position i holds the largest stamp, and is the first position that does. */
  ghost predicate FirstMaximal(stamps: seq<Option<int>>, i: nat) {
    && i < |stamps| && stamps[i].Some?
    && (forall j :: 0 <= j < |stamps| && stamps[j].Some? ==> stamps[j].value <= stamps[i].value)
    && (forall j :: 0 <= j < i && stamps[j].Some? ==> stamps[j].value < stamps[i].value)
  }

  lemma LatestStep(init: seq<Entry>, e: Entry, key: string, after: PreciseTime, host: Host)
    ensures var best, s := Latest(init, key, after, host), Stamp(e, key, after, host);
            Latest(init + [e], key, after, host) ==
            if s.Some? && (best.None? || s.value > Stamp(best.value, key, after, host).value) then Some(e) else best
  {
    assert (init + [e])[..|init|] == init;
    var best := Latest(init, key, after, host);
    if best.Some? && Qualifies(e, key, after, host) { CompareIsNumeric(At(e, host), At(best.value, host)); }
  }

  /** The position that leads after reading `stamps` from left to right: a later one must be larger to take over. */
  function Lead(stamps: seq<Option<int>>): (r: Option<nat>)
    ensures r.Some? ==> r.value < |stamps| && stamps[r.value].Some?
  {
    if stamps == [] then None else
    var n := |stamps| - 1;
    var lead := Lead(stamps[..n]);
    if stamps[n].Some? && (lead.None? || stamps[n].value > stamps[lead.value].value) then Some(n) else lead
  }

  lemma LeadOneMore(stamps: seq<Option<int>>, x: Option<int>)
    ensures Lead(stamps + [x]) ==
            if x.Some? && (Lead(stamps).None? || x.value > stamps[Lead(stamps).value].value) then Some(|stamps|) else Lead(stamps)
  {
    assert (stamps + [x])[..|stamps|] == stamps;
  }

  lemma {:induction false} LeadIsFirstMaximal(stamps: seq<Option<int>>)
    ensures match Lead(stamps)
            case None => (forall i :: 0 <= i < |stamps| ==> stamps[i].None?)
            case Some(i) => FirstMaximal(stamps, i)
  {
    if stamps == [] {
    } else {
      LeadIsFirstMaximal(stamps[..|stamps| - 1]);
    }
  }

  /** The entry at the leading position, if any. */
  ghost function LeadingEntry(entries: seq<Entry>, stamps: seq<Option<int>>): Option<Entry>
    requires |stamps| == |entries|
  {
    if Lead(stamps).Some? then Some(entries[Lead(stamps).value]) else None
  }

  lemma LeadingOneMore(init: seq<Entry>, stamps: seq<Option<int>>, e: Entry, x: Option<int>)
    requires |stamps| == |init|
    ensures var lead := Lead(stamps);
            LeadingEntry(init + [e], stamps + [x]) ==
            if x.Some? && (lead.None? || x.value > stamps[lead.value].value) then Some(e) else LeadingEntry(init, stamps)
  {
    LeadOneMore(stamps, x);
  }

  /** Latest is the leading entry. */
  ghost predicate Leads(entries: seq<Entry>, key: string, after: PreciseTime, host: Host) {
    Latest(entries, key, after, host) == LeadingEntry(entries, Stamps(entries, key, after, host))
  }

  lemma StampsOneMore(init: seq<Entry>, e: Entry, key: string, after: PreciseTime, host: Host)
    ensures Stamps(init + [e], key, after, host) == Stamps(init, key, after, host) + [Stamp(e, key, after, host)]
  {
    assert (init + [e])[..|init|] == init;
  }

  lemma LeadsOneMore(init: seq<Entry>, e: Entry, key: string, after: PreciseTime, host: Host)
    requires Leads(init, key, after, host)
    ensures Leads(init + [e], key, after, host)
  {
    LatestStep(init, e, key, after, host);
    StampsOneMore(init, e, key, after, host);
    LeadingOneMore(init, Stamps(init, key, after, host), e, Stamp(e, key, after, host));
  }

  lemma {:induction false} LatestLeads(entries: seq<Entry>, key: string, after: PreciseTime, host: Host)
    ensures Leads(entries, key, after, host)
  {
    if entries == [] {
    } else {
      var init, e := entries[..|entries| - 1], entries[|entries| - 1];
      LatestLeads(init, key, after, host);
      LeadsOneMore(init, e, key, after, host);
      assert entries == init + [e];
    }
  }

  /** The entry is the one at the first maximal stamp, and there is none exactly if there is no stamp. */
  ghost predicate IsFirstMaximal(r: Option<Entry>, entries: seq<Entry>, stamps: seq<Option<int>>)
    requires |stamps| == |entries|
  {
    && (r.None? <==> forall i :: 0 <= i < |stamps| ==> stamps[i].None?)
    && (r.Some? ==> exists i: nat :: FirstMaximal(stamps, i) && entries[i] == r.value)
  }

  lemma LeadingIsFirstMaximal(entries: seq<Entry>, stamps: seq<Option<int>>)
    requires |stamps| == |entries|
    ensures IsFirstMaximal(LeadingEntry(entries, stamps), entries, stamps)
  {
    LeadIsFirstMaximal(stamps);
  }

  /** latestAfter returns one exactly when some entry qualifies, and it is the first of the newest. */
  lemma LatestIsFirstMaximal(entries: seq<Entry>, key: string, after: PreciseTime, host: Host)
    ensures IsFirstMaximal(Latest(entries, key, after, host), entries, Stamps(entries, key, after, host))
  {
    LatestLeads(entries, key, after, host);
    LeadingIsFirstMaximal(entries, Stamps(entries, key, after, host));
  }

  lemma FirstMaximalIsUnique(entries: seq<Entry>, i: nat, key: string, after: PreciseTime, host: Host)
    requires FirstMaximal(Stamps(entries, key, after, host), i)
    ensures Latest(entries, key, after, host) == Some(entries[i])
  {
    LatestIsFirstMaximal(entries, key, after, host);
    var k: nat :| FirstMaximal(Stamps(entries, key, after, host), k) && Latest(entries, key, after, host) == Some(entries[k]);
    assert k == i;
  }

  function FindKey(entries: seq<Entry>, key: string): Option<Entry> {
    if entries == [] then None
    else if entries[0].key == key then Some(entries[0])
    else FindKey(entries[1..], key)
  }

  function ActiveOf(e: Entry): Observation {
    Active(e.state, e.holdReason, e.round, e.eventId, e.queuePosition, e.autoPause)
  }

  function FinishedOf(e: Entry): Observation {
    Finished(e.outcome, e.exitCode, e.round, e.eventId)
  }

  function Observe(document: Document, key: string, after: PreciseTime, host: Host): Observation {
    var k := host.lower(key);
    match Latest(document.items, k, after, host)
    case Some(active) => ActiveOf(active)
    case None =>
      match Latest(document.recent, k, after, host)
      case Some(finished) => FinishedOf(finished)
      case None =>
        match FindKey(document.items, k)
        case Some(previous) => NoEntry(Some(PreviousRound(previous.state, previous.round)))
        case None => NoEntry(None)
  }

  ghost predicate SomeQualifies(entries: seq<Entry>, key: string, after: PreciseTime, host: Host) {
    exists i :: 0 <= i < |entries| && Qualifies(entries[i], key, after, host)
  }

  lemma LatestFindsQualifying(entries: seq<Entry>, key: string, after: PreciseTime, host: Host)
    ensures Latest(entries, key, after, host).Some? <==> SomeQualifies(entries, key, after, host)
  {
    LatestIsFirstMaximal(entries, key, after, host);
    var stamps := Stamps(entries, key, after, host);
    assert forall i :: 0 <= i < |entries| ==> (stamps[i].Some? <==> Qualifies(entries[i], key, after, host));
  }

  /** What each kind of observation says about the document, in both directions. */
  lemma ObserveDecides(d: Document, key: string, after: PreciseTime, host: Host)
    ensures var o, k := Observe(d, key, after, host), host.lower(key);
            && (o.Active? <==> SomeQualifies(d.items, k, after, host))
            && (o.Finished? <==> !SomeQualifies(d.items, k, after, host) && SomeQualifies(d.recent, k, after, host))
            && (o.Active? ==> exists i: nat :: FirstMaximal(Stamps(d.items, k, after, host), i) && o == ActiveOf(d.items[i]))
            && (o.Finished? ==> exists i: nat :: FirstMaximal(Stamps(d.recent, k, after, host), i) && o == FinishedOf(d.recent[i]))
  {
    LatestFindsQualifying(d.items, host.lower(key), after, host);
    LatestFindsQualifying(d.recent, host.lower(key), after, host);
    LatestIsFirstMaximal(d.items, host.lower(key), after, host);
    LatestIsFirstMaximal(d.recent, host.lower(key), after, host);
  }

  /** The first entry for the key, whenever it was received. */
  ghost predicate FirstForKey(entries: seq<Entry>, key: string, i: nat) {
    i < |entries| && entries[i].key == key && forall j :: 0 <= j < i ==> entries[j].key != key
  }

  lemma {:induction false} FindKeyIsFirst(entries: seq<Entry>, key: string)
    ensures FindKey(entries, key).None? <==> forall i :: 0 <= i < |entries| ==> entries[i].key != key
    ensures FindKey(entries, key).Some? ==> exists i: nat :: FirstForKey(entries, key, i) && FindKey(entries, key).value == entries[i]
  {
    if entries == [] {
    } else if entries[0].key == key {
      assert FirstForKey(entries, key, 0);
    } else {
      FindKeyIsFirst(entries[1..], key);
      if FindKey(entries[1..], key).Some? {
        var i: nat :| FirstForKey(entries[1..], key, i) && FindKey(entries[1..], key).value == entries[1..][i];
        assert FirstForKey(entries, key, i + 1);
      }
    }
  }

  /** When nothing qualifies, the state and round of the first item for the key are remembered as those of a previous round. */
  lemma PreviousRoundIsFirst(d: Document, key: string, after: PreciseTime, host: Host)
    ensures var o, k := Observe(d, key, after, host), host.lower(key);
            o.NoEntry? ==>
              && (o.previousRound.None? <==> forall i :: 0 <= i < |d.items| ==> d.items[i].key != k)
              && (o.previousRound.Some? ==>
                    exists i: nat :: FirstForKey(d.items, k, i) && o.previousRound.value == PreviousRound(d.items[i].state, d.items[i].round))
  {
    FindKeyIsFirst(d.items, host.lower(key));
  }

  // ---- From the raw file to the observation ----

  lemma {:induction false} CollectedElements<S, T>(values: seq<S>, f: S -> Option<T>)
    ensures forall t :: t in Collected(values, f) <==> exists v :: v in values && f(v) == Some(t)
  {
    if values == [] {
    } else {
      var init, last := values[..|values| - 1], values[|values| - 1];
      CollectedElements(init, f);
      assert values == init + [last];
      assert forall v :: v in values <==> v in init || v == last;
    }
  }

  lemma {:induction false} CollectedConcat<S, T>(left: seq<S>, right: seq<S>, f: S -> Option<T>)
    ensures Collected(left + right, f) == Collected(left, f) + Collected(right, f)
  {
    if right == [] {
      assert left + right == left;
    } else {
      var n := |right| - 1;
      CollectedConcat(left, right[..n], f);
      assert (left + right)[..|left + right| - 1] == left + right[..n];
    }
  }

  lemma EntriesComeFromValues(values: seq<Json>, host: Host)
    ensures forall e :: e in ToEntries(values, host) <==> exists v :: v in values && ToEntry(v, host) == Some(e)
  {
    CollectedElements(values, EntryReader(host));
  }

  /** A broken entry is dropped alone: its neighbours and their order are untouched. */
  lemma BrokenEntryIsDroppedAlone(before: seq<Json>, broken: Json, rest: seq<Json>, host: Host)
    requires ToEntry(broken, host).None?
    ensures ToEntries(before + [broken] + rest, host) == ToEntries(before, host) + ToEntries(rest, host)
  {
    CollectedConcat(before + [broken], rest, EntryReader(host));
    CollectedConcat(before, [broken], EntryReader(host));
  }

  /** A raw entry for the key, received strictly after `after` (as instants, not strings). */
  ghost predicate ReceivedAfter(v: Json, key: string, after: PreciseTime, host: Host)
    requires Valid(after)
  {
    && v.Obj?
    && StringField(v.fields, "key").Some? && host.lower(StringField(v.fields, "key").value) == host.lower(key)
    && StringField(v.fields, "receivedAt").Some?
    && var instant := Denotes(StringField(v.fields, "receivedAt").value, host);
       instant.Some? && instant.value > Nanos(after)
  }

  ghost predicate SomeReceivedAfter(values: seq<Json>, key: string, after: PreciseTime, host: Host)
    requires Valid(after)
  {
    exists v :: v in values && ToEntry(v, host).Some? && ReceivedAfter(v, key, after, host)
  }

  lemma QualifiesIsReceivedAfter(v: Json, key: string, after: PreciseTime, host: Host)
    requires Valid(after) && ToEntry(v, host).Some?
    ensures Qualifies(ToEntry(v, host).value, host.lower(key), after, host) <==> ReceivedAfter(v, key, after, host)
  {
    var e := ToEntry(v, host).value;
    ParseDenotes(e.receivedAt, host);
    if Parse(Str(e.receivedAt), host).Some? { CompareIsNumeric(At(e, host), after); }
  }

  lemma SomeQualifiesIsSomeReceivedAfter(values: seq<Json>, key: string, after: PreciseTime, host: Host)
    requires Valid(after)
    ensures SomeQualifies(ToEntries(values, host), host.lower(key), after, host) <==> SomeReceivedAfter(values, key, after, host)
  {
    var entries := ToEntries(values, host);
    EntriesComeFromValues(values, host);
    if SomeQualifies(entries, host.lower(key), after, host) {
      var i :| 0 <= i < |entries| && Qualifies(entries[i], host.lower(key), after, host);
      assert entries[i] in entries;
      var v :| v in values && ToEntry(v, host) == Some(entries[i]);
      QualifiesIsReceivedAfter(v, key, after, host);
    }
    if SomeReceivedAfter(values, key, after, host) {
      var v :| v in values && ToEntry(v, host).Some? && ReceivedAfter(v, key, after, host);
      QualifiesIsReceivedAfter(v, key, after, host);
      assert ToEntry(v, host).value in entries;
      var i :| 0 <= i < |entries| && entries[i] == ToEntry(v, host).value;
    }
  }

  /** The observation made of a readable file depends on exactly this: whether items, and failing that
      recent, hold an entry for the key received strictly after `after`. Earlier rounds never count. */
  lemma ObservationOfFile(raw: Option<Json>, key: string, after: PreciseTime, host: Host)
    requires Valid(after) && ParseStatusDocument(raw, host).Ok?
    ensures var o := Observe(ParseStatusDocument(raw, host).document, key, after, host);
            var f := raw.value.fields;
            var active := SomeReceivedAfter(ArrayField(f, "items"), key, after, host);
            var ended := SomeReceivedAfter(ArrayField(f, "recent"), key, after, host);
            && (o.Active? <==> active)
            && (o.Finished? <==> !active && ended)
            && (o.NoEntry? <==> !active && !ended)
  {
    var d := ParseStatusDocument(raw, host).document;
    ObserveDecides(d, key, after, host);
    SomeQualifiesIsSomeReceivedAfter(ArrayField(raw.value.fields, "items"), key, after, host);
    SomeQualifiesIsSomeReceivedAfter(ArrayField(raw.value.fields, "recent"), key, after, host);
  }

  // ---- Field by field ----

  /** The member is this string, or no string at all. */
  predicate IsString(f: map<string, Json>, name: string, value: Option<string>) {
    match value
    case Some(s) => name in f && f[name] == Str(s)
    case None => name !in f || !f[name].Str?
  }

  predicate IsNumber(f: map<string, Json>, name: string, value: Option<int>) {
    match value
    case Some(n) => name in f && f[name] == Num(n)
    case None => name !in f || !f[name].Num?
  }

  /** A string that is a UTC timestamp. */
  predicate IsTime(s: string, host: Host) {
    Denotes(s, host).Some?
  }

  /** What the auto-pause details of an entry must be, member by member. */
  predicate DetailsOf(d: AutoPause, v: Json, host: Host) {
    && v.Obj?
    && IsString(v.fields, "agentId", Some(d.agentId)) && d.agentId != ""
    && IsString(v.fields, "limitId", Some(d.limitId)) && d.limitId != ""
    && IsNumber(v.fields, "usedPercentage", Some(d.usedPercentage))
    && IsNumber(v.fields, "thresholdPercentage", Some(d.thresholdPercentage))
    && IsString(v.fields, "observedAt", Some(d.observedAt)) && IsTime(d.observedAt, host)
    && match d.resetAt
       case Some(t) => IsString(v.fields, "resetAt", Some(t)) && IsTime(t, host)
       case None => "resetAt" !in v.fields
  }

  lemma DetailsAreTheFields(v: Json, host: Host, d: AutoPause)
    ensures ParseAutoPause(v, host) == Some(d) <==> DetailsOf(d, v, host)
  {
    if v.Obj? && DetailsOf(d, v, host) {
      ParseDenotes(d.observedAt, host);
      if d.resetAt.Some? { ParseDenotes(d.resetAt.value, host); }
    }
    if v.Obj? && ParseAutoPause(v, host) == Some(d) {
      ParseDenotes(d.observedAt, host);
      if d.resetAt.Some? { ParseDenotes(d.resetAt.value, host); }
    }
  }

  /** An entry that is held by auto-pause and comes with details. */
  predicate IsPaused(v: Json) {
    && v.Obj? && IsString(v.fields, "state", Some("waiting")) && IsString(v.fields, "holdReason", Some("autoPause"))
    && "autoPause" in v.fields
  }

  /** What an observation of an active entry says of the raw entry, member by member. */
  ghost predicate TellsActive(o: Observation, v: Json, host: Host) {
    && o.Active? && v.Obj?
    && IsString(v.fields, "state", Some(o.state)) && IsString(v.fields, "holdReason", o.holdReason)
    && IsNumber(v.fields, "round", o.round) && IsString(v.fields, "eventId", o.eventId)
    && IsNumber(v.fields, "queuePosition", o.queuePosition)
    && (forall d :: o.autoPause == Some(d) <==> IsPaused(v) && DetailsOf(d, v.fields["autoPause"], host))
  }

  ghost predicate TellsFinished(o: Observation, v: Json) {
    && o.Finished? && v.Obj?
    && IsString(v.fields, "outcome", o.outcome) && IsNumber(v.fields, "exitCode", o.exitCode)
    && IsNumber(v.fields, "round", o.round) && IsString(v.fields, "eventId", o.eventId)
  }

  lemma ObservationsTellTheFields(v: Json, host: Host)
    requires ToEntry(v, host).Some?
    ensures TellsActive(ActiveOf(ToEntry(v, host).value), v, host)
    ensures TellsFinished(FinishedOf(ToEntry(v, host).value), v)
  {
    var e := ToEntry(v, host).value;
    forall d ensures e.autoPause == Some(d) <==> IsPaused(v) && DetailsOf(d, v.fields["autoPause"], host) {
      if CarriesDetails(v) { DetailsAreTheFields(v.fields["autoPause"], host, d); }
    }
  }

  /** A raw value is an entry exactly if it has the three strings every entry needs. */
  lemma EntryNeeds(v: Json, host: Host)
    ensures ToEntry(v, host).Some? <==>
              && v.Obj?
              && exists k, s, t :: IsString(v.fields, "key", Some(k)) && IsString(v.fields, "state", Some(s))
                                   && IsString(v.fields, "receivedAt", Some(t))
  {
    if ToEntry(v, host).Some? {
      assert IsString(v.fields, "key", StringField(v.fields, "key")) && IsString(v.fields, "state", StringField(v.fields, "state"));
      assert IsString(v.fields, "receivedAt", StringField(v.fields, "receivedAt"));
    }
  }

  /** A raw entry is a newest one for the key, received strictly after `after`. */
  ghost predicate Newest(v: Json, values: seq<Json>, key: string, after: PreciseTime, host: Host)
    requires Valid(after)
  {
    && v in values && ToEntry(v, host).Some? && ReceivedAfter(v, key, after, host)
    && forall u :: u in values && ToEntry(u, host).Some? && ReceivedAfter(u, key, after, host) ==>
         Denotes(u.fields["receivedAt"].s, host).value <= Denotes(v.fields["receivedAt"].s, host).value
  }

  lemma FirstMaximalIsNewest(values: seq<Json>, i: nat, key: string, after: PreciseTime, host: Host) returns (v: Json)
    requires Valid(after) && FirstMaximal(Stamps(ToEntries(values, host), host.lower(key), after, host), i)
    ensures Newest(v, values, key, after, host) && ToEntry(v, host) == Some(ToEntries(values, host)[i])
  {
    var entries := ToEntries(values, host);
    EntriesComeFromValues(values, host);
    assert entries[i] in entries;
    v :| v in values && ToEntry(v, host) == Some(entries[i]);
    QualifiesIsReceivedAfter(v, key, after, host);
    ParseDenotes(entries[i].receivedAt, host);
    forall u | u in values && ToEntry(u, host).Some? && ReceivedAfter(u, key, after, host)
      ensures Denotes(u.fields["receivedAt"].s, host).value <= Denotes(v.fields["receivedAt"].s, host).value
    {
      QualifiesIsReceivedAfter(u, key, after, host);
      var e := ToEntry(u, host).value;
      assert e in entries;
      var j: nat :| j < |entries| && entries[j] == e;
      ParseDenotes(e.receivedAt, host);
      assert Stamps(entries, host.lower(key), after, host)[j] == Stamp(e, host.lower(key), after, host);
    }
  }

  /** A document that is accepted never loses auto-pause details it carried: an entry that had them
      keeps them, and details on an entry in another state are not invented. */
  lemma AcceptedDocumentKeepsDetails(raw: Option<Json>, host: Host, v: Json)
    requires ParseStatusDocument(raw, host).Ok?
    requires v in ArrayField(raw.value.fields, "items") || v in ArrayField(raw.value.fields, "recent")
    requires ToEntry(v, host).Some?
    ensures ToEntry(v, host).value.autoPause.Some? <==> CarriesDetails(v)
  {
    var f := raw.value.fields;
    assert !HasBrokenDetails(ArrayField(f, "items"), host) && !HasBrokenDetails(ArrayField(f, "recent"), host);
  }
}
