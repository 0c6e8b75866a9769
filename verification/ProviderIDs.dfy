/** The providerID strings that bind a machine to its node: printing, and the two
    parsers that read them back (one splits at the first separator, one at the last). */
module ProviderIDs {
  import opened Objects

  const SCHEME := "alicloud://"

  predicate Separator(c: char) { c == '/' || c == '.' }

  predicate SeparatorFree(s: string) { forall k :: 0 <= k < |s| ==> !Separator(s[k]) }

  predicate Lacks(s: string, c: char) { c !in s }

  function TrimPrefix(s: string, p: string): (r: string)
    ensures s == p + r || (r == s && !(p <= s))
  {
    if p <= s then s[|p|..] else s
  }

  /** The form the controller writes, which must equal the one on the Node. */
  function ProviderIDFor(region: string, id: string): string {
    SCHEME + region + "." + id
  }

  /** The older form, which both parsers still accept. */
  function SlashForm(region: string, id: string): string {
    SCHEME + region + "/" + id
  }

  /** Index of the last '/' or '.', or -1. */
  function LastSeparator(s: string): (i: int)
    ensures -1 <= i < |s|
    ensures i >= 0 ==> Separator(s[i])
    ensures forall k :: i < k < |s| ==> !Separator(s[k])
  {
    if s == "" then -1
    else if Separator(s[|s| - 1]) then |s| - 1
    else
      LastSeparator(s[..|s| - 1])
  }

  function ProviderInstanceID(providerID: string): string {
    var s := TrimPrefix(providerID, SCHEME);
    s[LastSeparator(s) + 1..]
  }

  /** Index of the first `c`, or the length when there is none. */
  function First(s: string, c: char): (i: nat)
    ensures i <= |s|
    ensures forall k :: 0 <= k < i ==> s[k] != c
    ensures i < |s| ==> s[i] == c
  {
    if s == "" || s[0] == c then 0 else First(s[1..], c) + 1
  }

  /** The part before the first `c`, provided `c` occurs and that part is non-empty. */
  function HeadBefore(s: string, c: char): Option<string> {
    var i := First(s, c);
    if 0 < i < |s| then Some(s[..i]) else None
  }

  function RegionOfProviderID(providerID: string): Option<string> {
    var s := TrimPrefix(providerID, SCHEME);
    match HeadBefore(s, '/')
    case Some(r) => Some(r)
    case None => HeadBefore(s, '.')
  }

  /** regionFromMachine: the stored region, else the region part of the providerID. */
  function RegionFrom(regionID: string, providerID: Option<string>): Option<string> {
    if regionID != "" then Some(regionID)
    else if providerID.Some? then RegionOfProviderID(providerID.value)
    else None
  }

  lemma LastSeparatorIs(s: string, i: int)
    requires -1 <= i < |s|
    requires i >= 0 ==> Separator(s[i])
    requires forall k :: i < k < |s| ==> !Separator(s[k])
    ensures LastSeparator(s) == i
  {
    var j := LastSeparator(s);
    assert j >= 0 ==> Separator(s[j]);
  }

  lemma FirstIs(s: string, c: char, i: nat)
    requires i <= |s| && (forall k :: 0 <= k < i ==> s[k] != c) && (i < |s| ==> s[i] == c)
    ensures First(s, c) == i
  {
    var j := First(s, c);
    assert j < |s| ==> s[j] == c;
  }

  lemma LastPart(region: string, sep: char, id: string)
    requires Separator(sep)
    ensures var body := region + [sep] + id;
            SeparatorFree(id) <==> body[LastSeparator(body) + 1..] == id
  {
    var body := region + [sep] + id;
    assert forall k :: |region| < k < |body| ==> body[k] == id[k - |region| - 1];
    var i := LastSeparator(body);
    assert body[|region|] == sep;
    assert |region| <= i;
    if SeparatorFree(id) {
      LastSeparatorIs(body, |region|);
      assert body[|region| + 1..] == id;
    } else {
      var k :| 0 <= k < |id| && Separator(id[k]);
      assert body[|region| + 1 + k] == id[k];
      assert i >= |region| + 1 + k;
    }
  }

  /** The instance part survives printing exactly when the id holds no separator. */
  lemma InstanceIDRoundTrip(region: string, id: string)
    ensures ProviderInstanceID(ProviderIDFor(region, id)) == id <==> SeparatorFree(id)
    ensures ProviderInstanceID(SlashForm(region, id)) == id <==> SeparatorFree(id)
  {
    LastPart(region, '.', id);
    LastPart(region, '/', id);
    var dot, slash := region + "." + id, region + "/" + id;
    assert ProviderIDFor(region, id) == SCHEME + dot && SlashForm(region, id) == SCHEME + slash;
    assert TrimPrefix(SCHEME + dot, SCHEME) == dot && TrimPrefix(SCHEME + slash, SCHEME) == slash;
  }

  /** Before the dot the body reads back as the region exactly when the region has none. */
  lemma DotHead(region: string, id: string)
    ensures HeadBefore(region + "." + id, '.') == Some(region) <==> region != "" && Lacks(region, '.')
  {
    var body := region + "." + id;
    assert body[..|region|] == region && body[|region|] == '.';
    if Lacks(region, '.') {
      FirstIs(body, '.', |region|);
    } else {
      var k := First(region, '.');
      FirstIs(body, '.', k);
    }
  }

  lemma {:induction false} FirstAppend(s: string, t: string, c: char)
    ensures First(s + t, c) == if c in s then First(s, c) else |s| + First(t, c)
  {
    if s == "" {
      assert s + t == t;
    } else if s[0] != c {
      FirstAppend(s[1..], t, c);
      assert (s + t)[1..] == s[1..] + t;
      assert c in s <==> c in s[1..];
    }
  }

  lemma FoundWithin(s: string, c: char)
    requires c in s
    ensures First(s, c) < |s| && s[First(s, c)] == c
  {
  }

  /** A slash head exists unless there is no slash or it comes first; it is never the region. */
  lemma SlashHead(region: string, id: string)
    ensures HeadBefore(region + "." + id, '/').None? <==>
              (Lacks(region, '/') && Lacks(id, '/')) || (region != "" && region[0] == '/')
    ensures HeadBefore(region + "." + id, '/') != Some(region)
  {
    FirstAppend(region, "." + id, '/');
    FirstAppend(".", id, '/');
    assert region + "." + id == region + ("." + id);
    if !Lacks(region, '/') {
      FoundWithin(region, '/');
    } else if !Lacks(id, '/') {
      FoundWithin(id, '/');
    }
  }

  /** The region part survives the written form exactly under this condition. The leading-slash
      disjunct is the one accident: an empty first slash part sends the parser to the dot. */
  lemma RegionRoundTrip(region: string, id: string)
    ensures RegionOfProviderID(ProviderIDFor(region, id)) == Some(region) <==>
              region != "" && Lacks(region, '.') &&
              ((Lacks(region, '/') && Lacks(id, '/')) || region[0] == '/')
  {
    hide HeadBefore;
    var body := region + "." + id;
    assert ProviderIDFor(region, id) == SCHEME + body;
    assert TrimPrefix(SCHEME + body, SCHEME) == body;
    DotHead(region, id);
    SlashHead(region, id);
  }

  lemma SlashRegionRoundTrip(region: string, id: string)
    ensures RegionOfProviderID(SlashForm(region, id)) == Some(region) <==>
              region != "" && Lacks(region, '/')
  {
    var body := region + "/" + id;
    assert SlashForm(region, id) == SCHEME + body;
    assert TrimPrefix(SCHEME + body, SCHEME) == body;
    assert body[..|region|] == region;
    if Lacks(region, '/') {
      FirstIs(body, '/', |region|);
    } else {
      var k := First(region, '/');
      assert body[..k] == region[..k];
      FirstIs(body, '/', k);
      var d := First(body, '.');
      assert d < |body| ==> body[d] == '.';
    }
  }

  /** For separator-free parts both forms read back to the same pair through both parsers. */
  lemma FormsAgree(region: string, id: string)
    requires region != "" && SeparatorFree(region) && SeparatorFree(id)
    ensures RegionOfProviderID(ProviderIDFor(region, id)) == RegionOfProviderID(SlashForm(region, id)) == Some(region)
    ensures ProviderInstanceID(ProviderIDFor(region, id)) == ProviderInstanceID(SlashForm(region, id)) == id
  {
    InstanceIDRoundTrip(region, id);
    RegionRoundTrip(region, id);
    SlashRegionRoundTrip(region, id);
  }

  /** Two such providerIDs, in either form, name the same instance only when both parts agree:
      the exact comparison that binds a Machine to its Node confuses no two instances. */
  lemma FormsInjective(region: string, id: string, other: string, instance: string)
    requires region != "" && SeparatorFree(region) && SeparatorFree(id)
    requires other != "" && SeparatorFree(other) && SeparatorFree(instance)
    ensures ProviderIDFor(region, id) == ProviderIDFor(other, instance) <==> region == other && id == instance
    ensures SlashForm(region, id) == SlashForm(other, instance) <==> region == other && id == instance
    ensures ProviderIDFor(region, id) != SlashForm(other, instance)
  {
    FormsAgree(region, id);
    FormsAgree(other, instance);
    assert ProviderIDFor(region, id)[|SCHEME| + |region|] == '.';
    assert SlashForm(other, instance)[|SCHEME| + |other|] == '/';
  }

  /** For any string at all: the instance part is what follows the last separator once the scheme
      is off, or all of it when there is none. */
  lemma InstanceIDIs(providerID: string) returns (head: string)
    ensures SeparatorFree(ProviderInstanceID(providerID))
    ensures (if SCHEME <= providerID then providerID[11..] else providerID) == head + ProviderInstanceID(providerID)
    ensures head != "" ==> Separator(head[|head| - 1])
  {
    var s := TrimPrefix(providerID, SCHEME);
    head := s[..LastSeparator(s) + 1];
    assert s == head + s[LastSeparator(s) + 1..];
  }

  /** For any string at all: the region part is a non-empty head before the first slash, else one
      before the first dot; without either there is none. */
  lemma RegionIs(providerID: string, region: string, rest: string)
    ensures var s := if SCHEME <= providerID then providerID[11..] else providerID;
            && (s == region + "/" + rest && region != "" && Lacks(region, '/') ==>
                  RegionOfProviderID(providerID) == Some(region))
            && (s == region + "." + rest && region != "" && Lacks(region, '.') && (Lacks(s, '/') || s[0] == '/') ==>
                  RegionOfProviderID(providerID) == Some(region))
            && ((Lacks(s, '/') || s[0] == '/') && (Lacks(s, '.') || s[0] == '.') ==>
                  RegionOfProviderID(providerID) == None)
  {
    var s := TrimPrefix(providerID, SCHEME);
    if s == region + "/" + rest && Lacks(region, '/') {
      assert s[..|region|] == region && s[|region|] == '/';
      FirstIs(s, '/', |region|);
    }
    if s == region + "." + rest && Lacks(region, '.') {
      assert s[..|region|] == region && s[|region|] == '.';
      FirstIs(s, '.', |region|);
    }
    NoHead(s, '/');
    NoHead(s, '.');
  }

  lemma NoHead(s: string, c: char)
    ensures HeadBefore(s, c).None? <==> Lacks(s, c) || s[0] == c
  {
    if !Lacks(s, c) {
      FoundWithin(s, c);
    } else {
      FirstIs(s, c, |s|);
    }
  }
}
