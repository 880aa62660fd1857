/// Assembling the details of one index from the seven independent
/// sub-responses of the monitoring API. Each sub-response is `None` when its
/// request failed; a failed sub-response only degrades its own fields.
module IndexDetailsFetch {
  import opened Base
  import opened Models

  // ---------------------------------------------------------------------
  // Sub-response shapes

  datatype StoreSettings = StoreSettings(storeType: Option<string>)

  datatype LifecycleSettings = LifecycleSettings(name: Option<string>)

  /// The `index` block of an index's settings; every value is a string.
  datatype IndexSettings = IndexSettings(
    creationDate: Option<string>,
    numberOfShards: Option<string>,
    numberOfReplicas: Option<string>,
    uuid: Option<string>,
    frozen: Option<string>,
    store: Option<StoreSettings>,
    lifecycle: Option<LifecycleSettings>,
    providedName: Option<string>)

  datatype IlmIndexStatus = IlmIndexStatus(policy: Option<string>, phase: Option<string>)

  datatype CatShardEntry = CatShardEntry(
    shard: string,
    prirep: string,
    state: string,
    docs: Option<string>,
    store: Option<string>,
    node: Option<string>)

  datatype TemplateEntry = TemplateEntry(name: string, indexPatterns: seq<string>)

  datatype CatIndexEntry = CatIndexEntry(health: Option<string>, status: Option<string>)

  datatype DataStreamLifecycle = DataStreamLifecycle(dataRetention: Option<string>)

  datatype DataStreamInfo = DataStreamInfo(
    name: string,
    timestampField: string,
    indices: seq<string>,
    generation: nat,
    template: Option<string>,
    lifecycle: Option<DataStreamLifecycle>)

  /// The seven sub-responses; `None` stands for a failed request.
  datatype DetailResponses = DetailResponses(
    settings: Option<map<string, IndexSettings>>,
    ilm: Option<map<string, IlmIndexStatus>>,
    segments: Option<map<string, nat>>,
    shards: Option<seq<CatShardEntry>>,
    templates: Option<seq<TemplateEntry>>,
    cat: Option<seq<CatIndexEntry>>,
    dataStreams: Option<seq<DataStreamInfo>>)

  // ---------------------------------------------------------------------
  // Number parsing (`str::parse` for the integer types)

  const U32_MAX: nat := 0xFFFF_FFFF
  const U64_MAX: nat := 0xFFFF_FFFF_FFFF_FFFF
  const I64_MIN: int := -0x8000_0000_0000_0000
  const I64_MAX: int := 0x7FFF_FFFF_FFFF_FFFF

  predicate IsDigit(c: char) {
    '0' <= c <= '9'
  }

  predicate AllDigits(s: string) {
    forall i :: 0 <= i < |s| ==> IsDigit(s[i])
  }

  function DigitsValue(s: string): nat
    requires AllDigits(s)
    decreases |s|
  {
    if |s| == 0 then 0
    else 10 * DigitsValue(s[..|s| - 1]) + (s[|s| - 1] as int - '0' as int)
  }

  /// Parsing an unsigned integer no larger than `max`: an optional `+`,
  /// then at least one decimal digit.
  function ParseUnsigned(s: string, max: nat): (r: Option<nat>)
    ensures r.Some? ==> r.value <= max
  {
    var digits := if |s| > 0 && s[0] == '+' then s[1..] else s;
    if |digits| == 0 || !AllDigits(digits) || DigitsValue(digits) > max then None
    else Some(DigitsValue(digits))
  }

  /// Parsing an `i64`: an optional sign, then at least one decimal digit.
  function ParseI64(s: string): (r: Option<int>)
    ensures r.Some? ==> I64_MIN <= r.value <= I64_MAX
  {
    if |s| > 0 && s[0] == '-' then
      var digits := s[1..];
      if |digits| == 0 || !AllDigits(digits) || DigitsValue(digits) > -I64_MIN then None
      else
        var v: int := 0 - (DigitsValue(digits) as int);
        Some(v)
    else
      match ParseUnsigned(s, I64_MAX)
      case None => None
      case Some(n) => Some(n)
  }

  function DigitChar(d: nat): char
    requires d < 10
  {
    ('0' as int + d) as char
  }

  /// Decimal rendering of a natural number, as `to_string`.
  function Decimal(n: nat): (s: string)
    decreases n
  {
    if n < 10 then [DigitChar(n)] else Decimal(n / 10) + [DigitChar(n % 10)]
  }

  lemma {:induction false} DecimalDigits(n: nat)
    ensures |Decimal(n)| > 0 && AllDigits(Decimal(n))
    ensures DigitsValue(Decimal(n)) == n
    decreases n
  {
    if n >= 10 {
      DecimalDigits(n / 10);
      var s := Decimal(n);
      assert s[..|s| - 1] == Decimal(n / 10);
    }
  }

  /// Parsing undoes decimal rendering for every value in range.
  lemma ParseDecimalRoundTrip(n: nat, max: nat)
    requires n <= max
    ensures ParseUnsigned(Decimal(n), max) == Some(n)
  {
    DecimalDigits(n);
    assert IsDigit(Decimal(n)[0]);
  }

  /// Parsing an `i64` undoes decimal rendering, with or without a minus
  /// sign, for every magnitude the sign allows.
  lemma ParseI64RoundTrip(n: nat)
    ensures n <= I64_MAX ==> ParseI64(Decimal(n)) == Some(n)
    ensures n <= -I64_MIN ==> ParseI64("-" + Decimal(n)) == Some(-(n as int))
  {
    DecimalDigits(n);
    assert IsDigit(Decimal(n)[0]);
    if n <= I64_MAX {
      ParseDecimalRoundTrip(n, I64_MAX);
    }
    assert ("-" + Decimal(n))[1..] == Decimal(n);
  }

  // ---------------------------------------------------------------------
  // Template patterns

  /// The simple glob used for index templates: `*` matches everything, a
  /// trailing `*` asks for a prefix, a leading `*` for a suffix, and any
  /// other pattern for equality.
  predicate PatternMatches(pattern: string, name: string) {
    if pattern == "*" then true
    else if |pattern| > 0 && pattern[|pattern| - 1] == '*' then StartsWith(name, pattern[..|pattern| - 1])
    else if |pattern| > 0 && pattern[0] == '*' then EndsWith(name, pattern[1..])
    else pattern == name
  }

  /// The four cases of the glob, stated in terms of how the pattern is built.
  lemma PatternMatchesCases(p: string, name: string)
    ensures PatternMatches("*", name)
    ensures PatternMatches(p + "*", name) <==> StartsWith(name, p)
    ensures (|p| == 0 || p[|p| - 1] != '*') ==> (PatternMatches("*" + p, name) <==> EndsWith(name, p))
    ensures (|p| > 0 && p[0] != '*' && p[|p| - 1] != '*') ==> (PatternMatches(p, name) <==> p == name)
  {
    assert (p + "*")[..|p|] == p;
    assert ("*" + p)[1..] == p;
    if |p| > 0 {
      assert ("*" + p)[|"*" + p| - 1] == p[|p| - 1];
    }
  }

  /// An infix pattern is not supported: `*x*` only matches names that start
  /// with the two characters `*x`.
  lemma InfixPatternIsLiteralPrefix()
    ensures PatternMatches("*x*", "*xy")
    ensures !PatternMatches("*x*", "axb")
  {
    assert "*x*"[..2] == "*x";
    assert "*xy"[..2] == "*x";
    assert "axb"[0] != "*x"[0];
  }

  predicate AnyPatternMatches(patterns: seq<string>, name: string) {
    exists i :: 0 <= i < |patterns| && PatternMatches(patterns[i], name)
  }

  /// The names of the templates with at least one pattern matching the
  /// index, in response order.
  function MatchingTemplateNames(templates: seq<TemplateEntry>, index: string): (r: seq<string>)
    ensures |r| <= |templates|
    decreases |templates|
  {
    if |templates| == 0 then []
    else
      (if AnyPatternMatches(templates[0].indexPatterns, index) then [templates[0].name] else [])
      + MatchingTemplateNames(templates[1..], index)
  }

  /// The names are collected template by template: a single template
  /// contributes its name exactly when one of its patterns matches, and the
  /// list for a concatenation is the concatenation of the lists.
  lemma {:induction false} MatchingTemplateNamesAppend(a: seq<TemplateEntry>, b: seq<TemplateEntry>, index: string)
    ensures MatchingTemplateNames(a + b, index) == MatchingTemplateNames(a, index) + MatchingTemplateNames(b, index)
    ensures |a| == 1 ==>
      MatchingTemplateNames(a, index) == if AnyPatternMatches(a[0].indexPatterns, index) then [a[0].name] else []
    decreases |a|
  {
    if |a| == 0 {
      assert a + b == b;
    } else {
      assert (a + b)[0] == a[0];
      assert (a + b)[1..] == a[1..] + b;
      MatchingTemplateNamesAppend(a[1..], b, index);
      if |a| == 1 {
        assert MatchingTemplateNames(a[1..], index) == [];
      }
    }
  }

  /// A name is listed exactly when some template of that name has a matching pattern.
  lemma {:induction false} MatchingTemplateNamesIff(templates: seq<TemplateEntry>, index: string, t: string)
    ensures t in MatchingTemplateNames(templates, index) <==>
      exists i :: 0 <= i < |templates| && templates[i].name == t && AnyPatternMatches(templates[i].indexPatterns, index)
    decreases |templates|
  {
    if |templates| > 0 {
      MatchingTemplateNamesIff(templates[1..], index, t);
      if exists i :: 0 <= i < |templates| && templates[i].name == t && AnyPatternMatches(templates[i].indexPatterns, index) {
        var i :| 0 <= i < |templates| && templates[i].name == t && AnyPatternMatches(templates[i].indexPatterns, index);
        if i > 0 {
          assert templates[1..][i - 1] == templates[i];
        }
      }
      if exists i :: 0 <= i < |templates[1..]| && templates[1..][i].name == t && AnyPatternMatches(templates[1..][i].indexPatterns, index) {
        var i :| 0 <= i < |templates[1..]| && templates[1..][i].name == t && AnyPatternMatches(templates[1..][i].indexPatterns, index);
        assert templates[i + 1] == templates[1..][i];
      }
    }
  }

  function Templates(response: Option<seq<TemplateEntry>>, index: string): seq<string> {
    match response
    case None => []
    case Some(ts) => MatchingTemplateNames(ts, index)
  }

  // ---------------------------------------------------------------------
  // Data streams

  /// The position of the first occurrence of `x` in `xs`.
  function IndexOf(xs: seq<string>, x: string): (r: Option<nat>)
    ensures r.None? <==> x !in xs
    ensures r.Some? ==> r.value < |xs| && xs[r.value] == x
    ensures r.Some? ==> forall k :: 0 <= k < r.value ==> xs[k] != x
    decreases |xs|
  {
    if |xs| == 0 then None
    else if xs[0] == x then Some(0)
    else match IndexOf(xs[1..], x)
      case None => None
      case Some(p) => Some(p + 1)
  }

  function StreamDetails(ds: DataStreamInfo, pos: nat): DataStreamDetails {
    var total := |ds.indices|;
    DataStreamDetails(
      ds.name, ds.timestampField, ds.generation, total, pos + 1, pos == total - 1, ds.template,
      match ds.lifecycle case None => None case Some(l) => l.dataRetention)
  }

  /// The details of the first data stream whose backing indices include the index.
  function FindDataStream(streams: seq<DataStreamInfo>, index: string): (r: Option<DataStreamDetails>)
    ensures r.None? <==> forall k :: 0 <= k < |streams| ==> index !in streams[k].indices
    ensures r.Some? ==>
      && 1 <= r.value.backingIndexPosition <= r.value.totalBackingIndices
      && (r.value.isWriteIndex <==> r.value.backingIndexPosition == r.value.totalBackingIndices)
    ensures r.Some? ==>
      exists k ::
        && 0 <= k < |streams|
        && (forall k' :: 0 <= k' < k ==> index !in streams[k'].indices)
        && r.value.name == streams[k].name
        && r.value.totalBackingIndices == |streams[k].indices|
        && streams[k].indices[r.value.backingIndexPosition - 1] == index
    decreases |streams|
  {
    if |streams| == 0 then None
    else match IndexOf(streams[0].indices, index)
      case Some(pos) => Some(StreamDetails(streams[0], pos))
      case None =>
        var rest := FindDataStream(streams[1..], index);
        assert forall k :: 1 <= k < |streams| ==> streams[k] == streams[1..][k - 1];
        rest
  }

  // ---------------------------------------------------------------------
  // Shards, ILM, segments, health

  function ShardFromEntry(e: CatShardEntry): ShardInfo {
    ShardInfo(
      match ParseUnsigned(e.shard, U32_MAX) case None => 0 case Some(n) => n,
      e.prirep == "p",
      e.state,
      match e.node case None => "unassigned" case Some(n) => n,
      match e.docs case None => None case Some(d) => ParseUnsigned(d, U64_MAX),
      e.store)
  }

  function ShardAllocation(response: Option<seq<CatShardEntry>>): (r: seq<ShardInfo>)
    ensures response.None? ==> r == []
    ensures response.Some? ==> |r| == |response.value|
    ensures response.Some? ==> forall i :: 0 <= i < |r| ==> r[i] == ShardFromEntry(response.value[i])
  {
    match response
    case None => []
    case Some(es) => seq(|es|, i requires 0 <= i < |es| => ShardFromEntry(es[i]))
  }

  /// One row per shard entry: primary exactly for `p`, a missing node
  /// reads "unassigned", an unreadable shard number reads 0.
  lemma ShardEntryMapping(e: CatShardEntry)
    ensures ShardFromEntry(e).primary <==> e.prirep == "p"
    ensures e.node.None? ==> ShardFromEntry(e).node == "unassigned"
    ensures e.node.Some? ==> ShardFromEntry(e).node == e.node.value
    ensures ParseUnsigned(e.shard, U32_MAX).None? ==> ShardFromEntry(e).shardId == 0
    ensures ShardFromEntry(e).shardId <= U32_MAX
    ensures ShardFromEntry(e).state == e.state && ShardFromEntry(e).size == e.store
  {
  }

  function SettingsFor(response: Option<map<string, IndexSettings>>, index: string): Option<IndexSettings> {
    match response
    case None => None
    case Some(m) => if index in m then Some(m[index]) else None
  }

  /// The lifecycle policy falls back to the settings' lifecycle name; the
  /// phase comes from the explain response only.
  function IlmFields(ilm: Option<map<string, IlmIndexStatus>>, settings: Option<IndexSettings>, index: string)
    : (Option<string>, Option<string>)
  {
    var (policy, phase) :=
      match ilm
      case None => (None, None)
      case Some(m) => if index in m then (m[index].policy, m[index].phase) else (None, None);
    var fallback :=
      match settings
      case None => None
      case Some(s) => match s.lifecycle case None => None case Some(l) => l.name;
    (if policy.Some? then policy else fallback, phase)
  }

  lemma IlmFallback(ilm: Option<map<string, IlmIndexStatus>>, settings: Option<IndexSettings>, index: string)
    ensures var explained := ilm.Some? && index in ilm.value;
      && IlmFields(ilm, settings, index).1 == (if explained then ilm.value[index].phase else None)
      && (explained && ilm.value[index].policy.Some? ==> IlmFields(ilm, settings, index).0 == ilm.value[index].policy)
      && (!(explained && ilm.value[index].policy.Some?) && settings.Some? && settings.value.lifecycle.Some? ==>
            IlmFields(ilm, settings, index).0 == settings.value.lifecycle.value.name)
      && (!(explained && ilm.value[index].policy.Some?) && (settings.None? || settings.value.lifecycle.None?) ==>
            IlmFields(ilm, settings, index).0 == None)
  {
  }

  function TotalSegments(response: Option<map<string, nat>>, index: string): nat {
    match response
    case None => 0
    case Some(m) => if index in m then m[index] else 0
  }

  /// Health and status from the first entry of the cat response.
  function HealthStatus(response: Option<seq<CatIndexEntry>>): (Option<string>, Option<string>) {
    match response
    case None => (None, None)
    case Some(es) => if |es| == 0 then (None, None) else (es[0].health, es[0].status)
  }

  function SettingNat(value: Option<string>): nat {
    match value
    case None => 0
    case Some(v) => match ParseUnsigned(v, U32_MAX) case None => 0 case Some(n) => n
  }

  /// The searchable-snapshot test on the store type.
  predicate IsPartialStore(settings: Option<IndexSettings>) {
    match settings
    case None => false
    case Some(s) =>
      match s.store
      case None => false
      case Some(st) =>
        match st.storeType
        case None => false
        case Some(t) => Contains(t, "snapshot") || Contains(t, "searchable")
  }

  predicate IsFrozenSetting(settings: Option<IndexSettings>) {
    settings.Some? && settings.value.frozen == Some("true")
  }

  // ---------------------------------------------------------------------
  // Assembly

  /// `fetch_index_details` after the requests: `joinError` is a failure to
  /// build one of the request URLs, the only way the whole fetch fails; a
  /// success echoes the name and the three figures it was given.
  function FetchIndexDetails(
    joinError: Option<string>, index: string, docCount: nat, ratePerSec: real, sizeBytes: nat,
    responses: DetailResponses): (r: Result<IndexDetails, string>)
    ensures r.Err? <==> joinError.Some?
    ensures r.Err? ==> r.error == joinError.value
    ensures r.Ok? ==>
      && r.value.name == index && r.value.docCount == docCount
      && r.value.ratePerSec == ratePerSec && r.value.sizeBytes == sizeBytes
  {
    if joinError.Some? then Err(joinError.value)
    else
      var settings := SettingsFor(responses.settings, index);
      var (ilmPolicy, ilmPhase) := IlmFields(responses.ilm, settings, index);
      var (health, status) := HealthStatus(responses.cat);
      Ok(IndexDetails(
        index,
        if settings.Some? then settings.value.providedName else None,
        if settings.Some? && settings.value.creationDate.Some? then ParseI64(settings.value.creationDate.value) else None,
        if settings.Some? then SettingNat(settings.value.numberOfShards) else 0,
        if settings.Some? then SettingNat(settings.value.numberOfReplicas) else 0,
        IsFrozenSetting(settings),
        IsPartialStore(settings),
        ilmPolicy,
        ilmPhase,
        TotalSegments(responses.segments, index),
        ShardAllocation(responses.shards),
        Templates(responses.templates, index),
        if settings.Some? then settings.value.uuid else None,
        health,
        status,
        docCount,
        ratePerSec,
        sizeBytes,
        match responses.dataStreams case None => None case Some(ds) => FindDataStream(ds, index)))
  }

  /// With every request failed, every derived field takes its default.
  lemma AllFailedGivesDefaults(index: string, docCount: nat, ratePerSec: real, sizeBytes: nat)
    ensures var r := FetchIndexDetails(None, index, docCount, ratePerSec, sizeBytes,
                                       DetailResponses(None, None, None, None, None, None, None));
      r == Ok(IndexDetails(index, None, None, 0, 0, false, false, None, None, 0, [], [], None, None, None,
                           docCount, ratePerSec, sizeBytes, None))
  {
  }

  /// A failed sub-response degrades only its own fields: losing the
  /// segments, shards, templates, cat or data-stream response resets exactly
  /// the field it feeds, losing the lifecycle explain response only
  /// affects the lifecycle fields, and losing the settings resets the
  /// fields read from them, the policy falling back to nothing.
  lemma FailureDegradesOnlyItsFields(index: string, docCount: nat, ratePerSec: real, sizeBytes: nat, r: DetailResponses)
    ensures var full := FetchIndexDetails(None, index, docCount, ratePerSec, sizeBytes, r).value;
      && FetchIndexDetails(None, index, docCount, ratePerSec, sizeBytes, r.(segments := None)).value
           == full.(totalSegments := 0)
      && FetchIndexDetails(None, index, docCount, ratePerSec, sizeBytes, r.(shards := None)).value
           == full.(shardAllocation := [])
      && FetchIndexDetails(None, index, docCount, ratePerSec, sizeBytes, r.(templates := None)).value
           == full.(templates := [])
      && FetchIndexDetails(None, index, docCount, ratePerSec, sizeBytes, r.(cat := None)).value
           == full.(health := None, status := None)
      && FetchIndexDetails(None, index, docCount, ratePerSec, sizeBytes, r.(dataStreams := None)).value
           == full.(dataStream := None)
      && FetchIndexDetails(None, index, docCount, ratePerSec, sizeBytes, r.(ilm := None)).value
           == full.(ilmPolicy := IlmFields(None, SettingsFor(r.settings, index), index).0, ilmPhase := None)
      && FetchIndexDetails(None, index, docCount, ratePerSec, sizeBytes, r.(settings := None)).value
           == full.(providedName := None, creationDate := None, primaryShards := 0, replicaShards := 0,
                    isFrozen := false, isPartial := false, uuid := None,
                    ilmPolicy := IlmFields(r.ilm, None, index).0)
  {
  }

  /// The frozen flag holds exactly for the setting "true", and the partial
  /// flag exactly when the store type mentions a snapshot or searchable store.
  lemma SettingsFlags(s: IndexSettings)
    ensures IsFrozenSetting(Some(s)) <==> s.frozen == Some("true")
    ensures IsPartialStore(Some(s)) <==>
      s.store.Some? && s.store.value.storeType.Some? &&
      (Contains(s.store.value.storeType.value, "snapshot") || Contains(s.store.value.storeType.value, "searchable"))
  {
  }
}
