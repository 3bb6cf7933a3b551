/** The AWS provider's inventory listing: regions, cursors and the order of pages. */
module Aws {
  import opened Wrappers
  import opened Text
  import P = Providers
  import I = Inventory
  import Sync

  // ----- normalizeRegions

  /** unicode.IsSpace. */
  predicate IsSpace(c: char) {
    || '\t' <= c <= '\r' || c == ' ' || c == '\U{85}' || c == '\U{A0}' || c == '\U{1680}'
    || '\U{2000}' <= c <= '\U{200A}' || c == '\U{2028}' || c == '\U{2029}' || c == '\U{202F}' || c == '\U{205F}'
    || c == '\U{3000}'
  }

  function TrimLeft(s: string): string {
    if s != "" && IsSpace(s[0]) then TrimLeft(s[1..]) else s
  }

  function TrimRight(s: string): string {
    if s != "" && IsSpace(s[|s| - 1]) then TrimRight(s[..|s| - 1]) else s
  }

  function Trim(s: string): string {
    TrimRight(TrimLeft(s))
  }

  /** unicode.ToLower as far as it can give an ASCII letter: the Kelvin sign and the dotted
      capital I have ASCII lower cases.  Other letters stay outside the pattern either way. */
  function LowerChar(c: char): char {
    if 'A' <= c <= 'Z' then c - 'A' + 'a'
    else if c == '\U{212A}' then 'k'
    else if c == '\U{130}' then 'i'
    else c
  }

  function Lower(s: string): string {
    seq(|s|, i requires 0 <= i < |s| => LowerChar(s[i]))
  }

  function Region(value: string): string {
    Lower(Trim(value))
  }

  predicate AllLower(s: string) {
    forall c :: c in s ==> 'a' <= c <= 'z'
  }

  predicate AllWord(s: string) {
    forall c :: c in s ==> 'a' <= c <= 'z' || '0' <= c <= '9'
  }

  /** The parts between dashes. */
  function Parts(s: string): (parts: seq<string>)
    ensures parts != []
  {
    if s == "" then [""]
    else
      var rest := Parts(s[1..]);
      if s[0] == '-' then [""] + rest else [[s[0]] + rest[0]] + rest[1..]
  }

  /** The region pattern: two letters, one to three words, and digits, between dashes. */
  predicate Matches(s: string) {
    var parts := Parts(s);
    && 3 <= |parts| <= 5
    && |parts[0]| == 2 && AllLower(parts[0])
    && (forall i :: 1 <= i < |parts| - 1 ==> parts[i] != "" && AllWord(parts[i]))
    && parts[|parts| - 1] != "" && AllDigits(parts[|parts| - 1])
  }

  // ----- the pattern as concatenation

  function Joined(parts: seq<string>): string
    requires parts != []
  {
    if |parts| == 1 then parts[0] else parts[0] + "-" + Joined(parts[1..])
  }

  ghost predicate NoDash(parts: seq<string>) {
    forall i :: 0 <= i < |parts| ==> '-' !in parts[i]
  }

  lemma {:induction false} PartsAreJoined(s: string)
    ensures Joined(Parts(s)) == s && NoDash(Parts(s))
  {
    if s != "" {
      PartsAreJoined(s[1..]);
      var rest := Parts(s[1..]);
      if s[0] == '-' {
        assert ([""] + rest)[1..] == rest;
        assert Joined(Parts(s)) == "" + "-" + s[1..];
      } else {
        assert ([[s[0]] + rest[0]] + rest[1..])[1..] == rest[1..];
        assert Joined(Parts(s)) == [s[0]] + Joined(rest);
      }
    }
  }

  lemma {:induction false} OnlyParts(parts: seq<string>)
    requires parts != [] && NoDash(parts)
    ensures Parts(Joined(parts)) == parts
    decreases |parts|, |parts[0]|
  {
    if |parts| == 1 && parts[0] == "" {
    } else if parts[0] == "" {
      OnlyParts(parts[1..]);
      assert Joined(parts)[1..] == Joined(parts[1..]);
    } else {
      var shorter := [parts[0][1..]] + parts[1..];
      assert shorter[1..] == parts[1..];
      OnlyParts(shorter);
      assert Joined(parts)[1..] == Joined(shorter);
      assert [parts[0][0]] + parts[0][1..] == parts[0];
    }
  }

  /** The parts of a region: letters, words, digits. */
  predicate RegionShape(letters: string, words: seq<string>, digits: string) {
    && |letters| == 2 && (forall c :: c in letters ==> 'a' <= c <= 'z')
    && 1 <= |words| <= 3
    && (forall w :: w in words ==> w != "" && forall c :: c in w ==> 'a' <= c <= 'z' || '0' <= c <= '9')
    && digits != "" && (forall c :: c in digits ==> '0' <= c <= '9')
  }

  /** A region is exactly two letters, one to three words and digits, joined by dashes. */
  lemma MatchesExactly(s: string)
    ensures Matches(s) <==>
      exists letters, words, digits :: RegionShape(letters, words, digits) && s == Joined([letters] + words + [digits])
  {
    hide Joined;
    if Matches(s) {
      var parts := Parts(s);
      PartsAreJoined(s);
      hide Parts;
      var n := |parts| - 1;
      assert [parts[0]] + parts[1..n] + [parts[n]] == parts;
      assert RegionShape(parts[0], parts[1..n], parts[n]) by {
        DigitsOnly(parts[n]);
      }
    }
    if letters, words, digits :| RegionShape(letters, words, digits) && s == Joined([letters] + words + [digits]) {
      var parts := [letters] + words + [digits];
      ShapeHasNoDash(letters, words, digits);
      OnlyParts(parts);
      hide Parts;
      DigitsOnly(digits);
      forall i | 1 <= i < |parts| - 1
        ensures parts[i] != "" && AllWord(parts[i])
      {
        assert parts[i] in words;
      }
    }
  }

  lemma DigitsOnly(s: string)
    ensures AllDigits(s) <==> forall c :: c in s ==> '0' <= c <= '9'
  {
    if forall c :: c in s ==> '0' <= c <= '9' {
      assert forall i :: 0 <= i < |s| ==> s[i] in s;
    }
  }

  lemma ShapeHasNoDash(letters: string, words: seq<string>, digits: string)
    requires RegionShape(letters, words, digits)
    ensures NoDash([letters] + words + [digits])
  {
    var parts := [letters] + words + [digits];
    forall i | 0 <= i < |parts|
      ensures '-' !in parts[i]
    {
      assert parts[i] == letters || parts[i] in words || parts[i] == digits;
    }
  }

  // ----- trimming and lower case

  /** Trimming drops white space at both ends and nothing else. */
  lemma TrimMeans(s: string)
    ensures exists left: string, right: string ::
      && s == left + Trim(s) + right
      && (forall c :: c in left + right ==> IsSpace(c))
    ensures Trim(s) != "" ==> !IsSpace(Trim(s)[0]) && !IsSpace(Trim(s)[|Trim(s)| - 1])
  {
    hide IsSpace;
    var left := LeftTrimmed(s);
    var right := RightTrimmed(TrimLeft(s));
    assert s == left + Trim(s) + right;
    assert forall c :: c in left + right ==> IsSpace(c);
    if Trim(s) != "" {
      assert Trim(s)[0] == TrimLeft(s)[0];
      FirstStays(s);
    }
  }

  lemma {:induction false} LeftTrimmed(s: string) returns (left: string)
    ensures s == left + TrimLeft(s) && forall c :: c in left ==> IsSpace(c)
  {
    hide IsSpace;
    left := "";
    if s != "" && IsSpace(s[0]) {
      var more := LeftTrimmed(s[1..]);
      left := [s[0]] + more;
    }
  }

  lemma {:induction false} RightTrimmed(s: string) returns (right: string)
    ensures s == TrimRight(s) + right && forall c :: c in right ==> IsSpace(c)
    ensures TrimRight(s) != "" ==> !IsSpace(TrimRight(s)[|TrimRight(s)| - 1]) && TrimRight(s)[0] == s[0]
    decreases |s|
  {
    hide IsSpace;
    right := "";
    if s != "" && IsSpace(s[|s| - 1]) {
      var more := RightTrimmed(s[..|s| - 1]);
      right := more + [s[|s| - 1]];
      assert s == s[..|s| - 1] + [s[|s| - 1]];
    }
  }

  lemma {:induction false} FirstStays(s: string)
    ensures TrimLeft(s) != "" ==> !IsSpace(TrimLeft(s)[0])
  {
    hide IsSpace;
    if s != "" && IsSpace(s[0]) {
      FirstStays(s[1..]);
    }
  }

  /** White space: the ASCII controls 9 to 13 and the blank, and Unicode's other spaces. */
  lemma SpacesAre(c: char)
    ensures IsSpace(c) <==>
      (c as int) in {9, 10, 11, 12, 13, 32, 0x85, 0xA0, 0x1680, 0x2000, 0x2001, 0x2002, 0x2003, 0x2004, 0x2005, 0x2006,
                     0x2007, 0x2008, 0x2009, 0x200A, 0x2028, 0x2029, 0x202F, 0x205F, 0x3000}
  {
  }

  /** Lower case: letters A to Z move by 32; two other characters become letters. */
  lemma LowerMeans(s: string)
    ensures |Lower(s)| == |s|
    ensures forall i :: 0 <= i < |s| ==>
      Lower(s)[i] as int == (if 65 <= s[i] as int <= 90 then s[i] as int + 32
                             else if s[i] as int == 0x212A then 107
                             else if s[i] as int == 0x130 then 105 else s[i] as int)
  {
  }

  predicate Acceptable(value: string) {
    Matches(Region(value)) && |Region(value)| <= 64
  }

  /** `result` holds the regions of `values`, each once, by first occurrence. */
  ghost predicate DistinctInOrder(values: seq<string>, result: seq<string>) {
    && (forall r :: r in result <==> exists i :: 0 <= i < |values| && Region(values[i]) == r)
    && (forall i, j :: 0 <= i < j < |result| ==> result[i] != result[j])
    && (forall a, b :: 0 <= a < b < |result| ==> FirstAt(values, result[a]) < FirstAt(values, result[b]))
  }

  /** Where a region first occurs, or the length. */
  function FirstAt(values: seq<string>, r: string): (i: nat)
    ensures i <= |values| && (i < |values| ==> Region(values[i]) == r)
    ensures forall k :: 0 <= k < i ==> Region(values[k]) != r
  {
    if values == [] then 0 else if Region(values[0]) == r then 0 else 1 + FirstAt(values[1..], r)
  }

  /** `result` holds the regions first met before position `n`, in that order. */
  ghost predicate MetBefore(values: seq<string>, n: nat, result: seq<string>) {
    && (forall r :: r in result <==> FirstAt(values, r) < n)
    && (forall i, j :: 0 <= i < j < |result| ==> result[i] != result[j])
    && (forall a, b :: 0 <= a < b < |result| ==> FirstAt(values, result[a]) < FirstAt(values, result[b]))
  }

  lemma MeetOne(values: seq<string>, n: nat, result: seq<string>)
    requires n < |values| && MetBefore(values, n, result)
    ensures Region(values[n]) in result ==> MetBefore(values, n + 1, result)
    ensures Region(values[n]) !in result ==> MetBefore(values, n + 1, result + [Region(values[n])])
  {
    hide Region, FirstAt;
    var region := Region(values[n]);
    assert FirstAt(values, region) <= n;
  }

  lemma MetAll(values: seq<string>, result: seq<string>)
    requires MetBefore(values, |values|, result)
    ensures DistinctInOrder(values, result)
  {
    hide Region, FirstAt;
    forall r
      ensures r in result <==> exists i :: 0 <= i < |values| && Region(values[i]) == r
    {
      var i := FirstAt(values, r);
    }
  }

  method NormalizeRegions(values: seq<string>) returns (r: Result<seq<string>, P.Error>)
    ensures r.Ok? <==> 1 <= |values| <= 32 && forall i :: 0 <= i < |values| ==> Acceptable(values[i])
    ensures r.Ok? ==> DistinctInOrder(values, r.value)
  {
    hide Region, Matches, FirstAt, DistinctInOrder, MetBefore;
    if |values| == 0 || |values| > 32 {
      return Err(P.LOCAL);
    }
    var result: seq<string> := [];
    var seen: set<string> := {};
    NothingMet(values);
    for n := 0 to |values|
      invariant forall i :: 0 <= i < n ==> Acceptable(values[i])
      invariant forall region :: region in seen <==> region in result
      invariant MetBefore(values, n, result)
    {
      var region := Region(values[n]);
      assert Acceptable(values[n]) <==> Matches(region) && |region| <= 64;
      if !Matches(region) || |region| > 64 {
        return Err(P.LOCAL);
      }
      MeetOne(values, n, result);
      if region !in seen {
        seen := seen + {region};
        result := result + [region];
      }
    }
    MetAll(values, result);
    return Ok(result);
  }

  lemma NothingMet(values: seq<string>)
    ensures MetBefore(values, 0, [])
  {
  }

  // ----- flattenInstances

  /** One instance; `body` stands for the columns copied without a decision. */
  datatype Instance = Instance(id: string, state: Option<string>, tags: seq<(string, string)>, body: I.Remote)

  datatype Output = Output(reservations: seq<seq<Instance>>, nextToken: string)

  function NameFrom(tags: seq<(string, string)>, id: string): string {
    if tags == [] then id
    else if tags[0].0 == "Name" && Trim(tags[0].1) != "" then Trim(tags[0].1)
    else NameFrom(tags[1..], id)
  }

  function MapState(state: string): (r: string)
    ensures I.ValidState(r)
  {
    match state
    case "pending" => "pending"
    case "running" => "running"
    case "stopping" => "stopping"
    case "shutting-down" => "stopping"
    case "stopped" => "stopped"
    case "terminated" => "error"
    case _ => "unknown"
  }

  /** An instance without an id is left out. */
  function NormalizeInstance(instance: Instance, region: string): seq<I.Remote> {
    var id := Trim(instance.id);
    if id == "" then []
    else
      var raw := if instance.state.Some? then instance.state.value else "unknown";
      [instance.body.(externalId := id, scope := region, name := NameFrom(instance.tags, id), state := MapState(raw),
                      remoteState := raw, hasPortal := true)]
  }

  /** The first tag called Name that is not blank names the instance, or else its id. */
  lemma {:induction false} NameMeans(tags: seq<(string, string)>, id: string)
    ensures (forall i :: 0 <= i < |tags| ==> tags[i].0 != "Name" || Trim(tags[i].1) == "") ==> NameFrom(tags, id) == id
    ensures forall i :: 0 <= i < |tags| && tags[i].0 == "Name" && Trim(tags[i].1) != ""
                        && (forall j :: 0 <= j < i ==> tags[j].0 != "Name" || Trim(tags[j].1) == "") ==>
              NameFrom(tags, id) == Trim(tags[i].1)
  {
    hide Trim;
    if tags != [] && (tags[0].0 != "Name" || Trim(tags[0].1) == "") {
      NameMeans(tags[1..], id);
      forall i | 0 <= i < |tags| && tags[i].0 == "Name" && Trim(tags[i].1) != ""
                 && (forall j :: 0 <= j < i ==> tags[j].0 != "Name" || Trim(tags[j].1) == "")
        ensures NameFrom(tags, id) == Trim(tags[i].1)
      {
        assert tags[1..][i - 1] == tags[i];
        assert forall j :: 0 <= j < i - 1 ==> tags[1..][j] == tags[j + 1];
      }
    }
  }

  /** AWS's states in the program's words. */
  lemma StatesMap(state: string)
    ensures state == "pending" || state == "running" || state == "stopping" || state == "stopped" ==> MapState(state) == state
    ensures state == "shutting-down" ==> MapState(state) == "stopping"
    ensures state == "terminated" ==> MapState(state) == "error"
  {
  }

  lemma OtherStatesAreUnknown(state: string)
    ensures state !in ["pending", "running", "stopping", "shutting-down", "stopped", "terminated"] ==> MapState(state) == "unknown"
  {
  }

  /** An instance with a blank id is left out; another one is taken under its trimmed id, in
      its region, with its name, both forms of its state and a portal. */
  lemma InstanceMeans(instance: Instance, region: string)
    ensures Trim(instance.id) == "" ==> NormalizeInstance(instance, region) == []
    ensures Trim(instance.id) != "" ==>
      && |NormalizeInstance(instance, region)| == 1
      && var remote := NormalizeInstance(instance, region)[0];
      && remote.externalId == Trim(instance.id) && remote.scope == region && remote.name == NameFrom(instance.tags, Trim(instance.id))
      && remote.remoteState == (if instance.state.None? then "unknown" else instance.state.value)
      && remote.state == MapState(remote.remoteState) && remote.hasPortal
      && remote.spec == instance.body.spec && remote.addresses == instance.body.addresses
      && remote.capabilities == instance.body.capabilities
  {
    hide Trim, NameFrom, MapState;
  }

  function FlattenGroup(group: seq<Instance>, region: string): seq<I.Remote> {
    if group == [] then []
    else FlattenGroup(group[..|group| - 1], region) + NormalizeInstance(group[|group| - 1], region)
  }

  function Flatten(reservations: seq<seq<Instance>>, region: string): (servers: seq<I.Remote>)
    ensures forall i :: 0 <= i < |servers| ==> servers[i].scope == region && servers[i].externalId != ""
  {
    if reservations == [] then []
    else
      GroupIsScoped(reservations[|reservations| - 1], region);
      Flatten(reservations[..|reservations| - 1], region) + FlattenGroup(reservations[|reservations| - 1], region)
  }

  lemma {:induction false} GroupIsScoped(group: seq<Instance>, region: string)
    ensures forall s :: s in FlattenGroup(group, region) ==> s.scope == region && s.externalId != ""
  {
    if group != [] {
      GroupIsScoped(group[..|group| - 1], region);
    }
  }

  method FlattenInstances(output: Output, region: string) returns (servers: seq<I.Remote>)
    ensures servers == Flatten(output.reservations, region)
  {
    hide NormalizeInstance;
    servers := [];
    for n := 0 to |output.reservations|
      invariant servers == Flatten(output.reservations[..n], region)
    {
      var group := output.reservations[n];
      ghost var before := servers;
      for m := 0 to |group|
        invariant servers == before + FlattenGroup(group[..m], region)
      {
        servers := servers + NormalizeInstance(group[m], region);
        assert group[..m + 1][..m] == group[..m];
      }
      assert group[..|group|] == group;
      assert output.reservations[..n + 1][..n] == output.reservations[..n];
    }
    assert output.reservations[..|output.reservations|] == output.reservations;
  }

  // ----- ListServers

  datatype Position = Position(region: int, token: string)

  /** The text of a cursor is its position, or does not decode. */
  datatype Cursor = At(position: Position) | Malformed

  type Page = Sync.Page<Cursor>

  /** The configured regions, and DescribeInstances of each region's client. */
  datatype Provider = Provider(regions: seq<string>, describe: (string, string) -> Result<Output, P.Error>)

  const INVALID_CURSOR := P.Error(true, "invalid_configuration", "invalid AWS inventory cursor", false)

  function ListServers(provider: Provider, cursor: Option<Cursor>): Result<Page, P.Error> {
    var position := if cursor.None? then Position(0, "") else if cursor.value.At? then cursor.value.position else Position(-1, "");
    if position.region < 0 || position.region >= |provider.regions| then Err(INVALID_CURSOR)
    else
      var region := provider.regions[position.region];
      var output := provider.describe(region, position.token);
      if output.Err? then Err(output.error)
      else
        var token := output.value.nextToken;
        var next := Position(if token == "" then position.region + 1 else position.region, token);
        Ok(Sync.Page(Flatten(output.value.reservations, region),
                     if next.region < |provider.regions| then Some(At(next)) else None))
  }

  /** A cursor that does not decode or points outside the regions is an error of the caller. */
  lemma BadCursors(provider: Provider, position: Position)
    requires position.region < 0 || position.region >= |provider.regions|
    ensures ListServers(provider, Some(Malformed)) == ListServers(provider, Some(At(position)))
            == Err(P.Error(true, "invalid_configuration", "invalid AWS inventory cursor", false))
  {
  }

  // ----- following the cursors

  type Pages = seq<seq<I.Remote>>

  /** Following the cursors from `cursor` gives exactly these pages, without an error. */
  ghost predicate Visits(provider: Provider, cursor: Option<Cursor>, pages: Pages)
    decreases |pages|
  {
    && pages != []
    && var page := ListServers(provider, cursor);
    && page.Ok? && page.value.servers == pages[0]
    && (if page.value.next.None? then |pages| == 1 else Visits(provider, page.value.next, pages[1..]))
  }

  /** One region's chain of tokens from `token` on is finite and these are its pages. */
  ghost predicate Chain(provider: Provider, region: string, token: string, pages: Pages)
    decreases |pages|
  {
    && pages != []
    && var output := provider.describe(region, token);
    && output.Ok? && Flatten(output.value.reservations, region) == pages[0]
    && (if output.value.nextToken == "" then |pages| == 1 else Chain(provider, region, output.value.nextToken, pages[1..]))
  }

  /** The chains of the regions from number `r` on, one after the other. */
  ghost predicate Chains(provider: Provider, r: nat, pages: Pages)
    requires r <= |provider.regions|
    decreases |provider.regions| - r
  {
    if r == |provider.regions| then pages == []
    else exists n :: 0 < n <= |pages| && Chain(provider, provider.regions[r], "", pages[..n]) && Chains(provider, r + 1, pages[n..])
  }

  /** From inside a region: the rest of its chain, then the later regions. */
  ghost predicate Rest(provider: Provider, r: nat, token: string, pages: Pages)
    requires r < |provider.regions|
  {
    exists n :: 0 < n <= |pages| && Chain(provider, provider.regions[r], token, pages[..n]) && Chains(provider, r + 1, pages[n..])
  }

  lemma {:induction false} VisitsIsRest(provider: Provider, r: nat, token: string, pages: Pages)
    requires r < |provider.regions|
    ensures Visits(provider, Some(At(Position(r, token))), pages) <==> Rest(provider, r, token, pages)
    decreases |pages|
  {
    var region := provider.regions[r];
    var output := provider.describe(region, token);
    if pages != [] && output.Ok? && Flatten(output.value.reservations, region) == pages[0] {
      var next := output.value.nextToken;
      if next != "" {
        VisitsIsRest(provider, r, next, pages[1..]);
        RestOneMore(provider, r, token, pages);
      } else {
        ChainEnds(provider, r, token, pages);
        if r + 1 < |provider.regions| {
          VisitsIsRest(provider, r + 1, "", pages[1..]);
        }
      }
    }
  }

  lemma RestOneMore(provider: Provider, r: nat, token: string, pages: Pages)
    requires r < |provider.regions| && pages != []
    requires
      var output := provider.describe(provider.regions[r], token);
      output.Ok? && Flatten(output.value.reservations, provider.regions[r]) == pages[0] && output.value.nextToken != ""
    ensures
      Rest(provider, r, token, pages)
      <==> Rest(provider, r, provider.describe(provider.regions[r], token).value.nextToken, pages[1..])
  {
    var region := provider.regions[r];
    var next := provider.describe(region, token).value.nextToken;
    forall n | 0 < n <= |pages|
      ensures pages[..n][0] == pages[0] && pages[..n][1..] == pages[1..][..n - 1] && pages[1..][n - 1..] == pages[n..]
    {
    }
    if Rest(provider, r, token, pages) {
      var n :| 0 < n <= |pages| && Chain(provider, region, token, pages[..n]) && Chains(provider, r + 1, pages[n..]);
      assert Chain(provider, region, next, pages[1..][..n - 1]) && Chains(provider, r + 1, pages[1..][n - 1..]);
    }
    if Rest(provider, r, next, pages[1..]) {
      var m :| 0 < m <= |pages[1..]| && Chain(provider, region, next, pages[1..][..m]) && Chains(provider, r + 1, pages[1..][m..]);
      var n := m + 1;
      assert pages[..n][1..] == pages[1..][..m] && pages[n..] == pages[1..][m..];
      assert Chain(provider, region, token, pages[..n]);
    }
  }

  lemma ChainEnds(provider: Provider, r: nat, token: string, pages: Pages)
    requires r < |provider.regions| && pages != []
    requires
      var output := provider.describe(provider.regions[r], token);
      output.Ok? && Flatten(output.value.reservations, provider.regions[r]) == pages[0] && output.value.nextToken == ""
    ensures Rest(provider, r, token, pages) <==> Chains(provider, r + 1, pages[1..])
  {
    var region := provider.regions[r];
    if Rest(provider, r, token, pages) {
      var n :| 0 < n <= |pages| && Chain(provider, region, token, pages[..n]) && Chains(provider, r + 1, pages[n..]);
      assert n == 1;
    }
    if Chains(provider, r + 1, pages[1..]) {
      assert Chain(provider, region, token, pages[..1]);
    }
  }

  /** Following the cursors from nil ends, after exactly these pages, if and only if every
      region's chain of tokens is finite and they are the chains' pages: every page of every
      region, once, region by region in the configured order. */
  lemma TraversalIsTheChains(provider: Provider, pages: Pages)
    requires provider.regions != []
    ensures Visits(provider, None, pages) <==> Chains(provider, 0, pages)
  {
    assert ListServers(provider, None) == ListServers(provider, Some(At(Position(0, ""))));
    VisitsIsRest(provider, 0, "", pages);
  }

  /** And there is only one such traversal. */
  lemma {:induction false} OneTraversal(provider: Provider, cursor: Option<Cursor>, a: Pages, b: Pages)
    requires Visits(provider, cursor, a) && Visits(provider, cursor, b)
    ensures a == b
    decreases |a|
  {
    var page := ListServers(provider, cursor);
    if page.value.next.Some? {
      OneTraversal(provider, page.value.next, a[1..], b[1..]);
    }
    assert a == [a[0]] + a[1..] && b == [b[0]] + b[1..];
  }

  // ----- what SyncConnection sees

  function Listing(provider: Provider): Sync.Listing<Cursor> {
    (_: nat, cursor: Option<Cursor>) => ListServers(provider, cursor)
  }

  function Concat(pages: Pages): seq<I.Remote> {
    if pages == [] then [] else Concat(pages[..|pages| - 1]) + pages[|pages| - 1]
  }

  /** The traversal from nil reached page `k`. */
  lemma {:induction false} SyncFollows(provider: Provider, pages: Pages, k: nat)
    requires Visits(provider, None, pages) && k < |pages|
    ensures Sync.Open(Listing(provider), k)
    ensures Visits(provider, Sync.CursorAt(Listing(provider), k), pages[k..])
    ensures Sync.Remotes(Listing(provider), k) == Concat(pages[..k])
  {
    if k == 0 {
      assert pages[0..] == pages;
    } else {
      var list := Listing(provider);
      SyncFollows(provider, pages, k - 1);
      OnePage(provider, Sync.CursorAt(list, k - 1), pages[k - 1..]);
      AnswerIs(provider, k - 1);
      hide Visits, ListServers, Listing, Sync.Answer, Sync.CursorAt, Sync.Remotes, Sync.Open, Sync.Ends;
      Sync.OnePageMore(list, k - 1);
      assert pages[k - 1..][0] == pages[k - 1] && pages[k - 1..][1..] == pages[k..];
      assert pages[..k][..k - 1] == pages[..k - 1];
    }
  }

  lemma AnswerIs(provider: Provider, k: nat)
    ensures Sync.Answer(Listing(provider), k) == ListServers(provider, Sync.CursorAt(Listing(provider), k))
  {
  }

  lemma OnePage(provider: Provider, cursor: Option<Cursor>, pages: Pages)
    requires Visits(provider, cursor, pages)
    ensures pages != [] && ListServers(provider, cursor).Ok? && ListServers(provider, cursor).value.servers == pages[0]
    ensures ListServers(provider, cursor).value.next.None? <==> |pages| == 1
    ensures |pages| > 1 ==> Visits(provider, ListServers(provider, cursor).value.next, pages[1..])
  {
    hide ListServers;
  }

  /** SyncConnection on AWS collects the concatenation of the traversal's pages. */
  lemma SyncCollectsTheTraversal(provider: Provider, pages: Pages)
    requires Visits(provider, None, pages)
    ensures Sync.Ends(Listing(provider), |pages|)
    ensures Sync.Remotes(Listing(provider), |pages|) == Concat(pages)
  {
    var n := |pages| - 1;
    SyncFollows(provider, pages, n);
    OnePage(provider, Sync.CursorAt(Listing(provider), n), pages[n..]);
    AnswerIs(provider, n);
    hide Visits, ListServers, Listing, Sync.Answer, Sync.CursorAt, Sync.Remotes, Sync.Open, Sync.Ends;
    Sync.OnePageMore(Listing(provider), n);
    assert Concat(pages) == Concat(pages[..n]) + pages[n];
    hide Concat;
    assert pages[n..][0] == pages[n];
    assert pages[n..] == [pages[n]];
  }

  /** The pages of the calls from number `k` on. */
  function PagesFrom(provider: Provider, k: nat, n: nat): Pages
    requires k <= n
    decreases n - k
  {
    if k == n then []
    else
      var page := Sync.Answer(Listing(provider), k);
      [if page.Ok? then page.value.servers else []] + PagesFrom(provider, k + 1, n)
  }

  lemma {:induction false} EndIsATraversal(provider: Provider, k: nat, n: nat)
    requires Sync.Ends(Listing(provider), n) && k < n
    ensures Visits(provider, Sync.CursorAt(Listing(provider), k), PagesFrom(provider, k, n))
    decreases n - k
  {
    hide Listing, Sync.Answer, Sync.CursorAt, Sync.Ends, Sync.Open, Sync.Remotes, ListServers, Visits, PagesFrom;
    var list := Listing(provider);
    Sync.PageOfAnEnd(list, n, k);
    AnswerIs(provider, k);
    Sync.OnePageMore(list, k);
    PagesFromOne(provider, k, n);
    if k + 1 < n {
      EndIsATraversal(provider, k + 1, n);
    }
    VisitsOne(provider, Sync.CursorAt(list, k), PagesFrom(provider, k + 1, n));
  }

  lemma PagesFromOne(provider: Provider, k: nat, n: nat)
    requires k < n
    ensures
      var page := Sync.Answer(Listing(provider), k);
      PagesFrom(provider, k, n) == [if page.Ok? then page.value.servers else []] + PagesFrom(provider, k + 1, n)
    ensures PagesFrom(provider, n, n) == []
  {
    hide Listing, Sync.Answer;
  }

  lemma VisitsOne(provider: Provider, cursor: Option<Cursor>, rest: Pages)
    requires ListServers(provider, cursor).Ok?
    requires ListServers(provider, cursor).value.next.None? ==> rest == []
    requires ListServers(provider, cursor).value.next.Some? ==> Visits(provider, ListServers(provider, cursor).value.next, rest)
    ensures Visits(provider, cursor, [ListServers(provider, cursor).value.servers] + rest)
  {
    var pages := [ListServers(provider, cursor).value.servers] + rest;
    assert pages[1..] == rest;
    hide ListServers;
  }

  /** SyncConnection replaces an AWS inventory exactly when every region's chain is finite,
      there are at most 1000 pages and 10000 servers, and every server normalises. */
  lemma SyncCompletesExactly(provider: Provider, world: Sync.World)
    requires provider.regions != []
    ensures
      (exists n: nat :: Sync.Complete(Listing(provider), world, n)) <==>
      (exists pages :: Chains(provider, 0, pages) && |pages| <= 1000 && |Concat(pages)| <= 10000
                       && Sync.AllNormalise(world, Concat(pages)))
  {
    var list := Listing(provider);
    if n: nat :| Sync.Complete(list, world, n) {
      EndIsATraversal(provider, 0, n);
      var pages := PagesFrom(provider, 0, n);
      SyncCollectsTheTraversal(provider, pages);
      Sync.OneEnd(list, n, |pages|);
      TraversalIsTheChains(provider, pages);
    }
    if pages :| Chains(provider, 0, pages) && |pages| <= 1000 && |Concat(pages)| <= 10000 && Sync.AllNormalise(world, Concat(pages)) {
      TraversalIsTheChains(provider, pages);
      SyncCollectsTheTraversal(provider, pages);
      assert Sync.Complete(list, world, |pages|);
    }
  }
}
