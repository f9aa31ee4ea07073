/** Attribution: the utm printed into a generated link, and how a reported utm finds its way back. */
module Attribution {
  import opened Prelude
  import opened Text
  import opened Contract

  /** A saved affiliate link. */
  datatype Link = Link(
    id: string,
    userId: string,
    productId: string,
    subId1: Option<string>,
    subId2: Option<string>,
    subId3: Option<string>,
    subId4: Option<string>,
    subId5: Option<string>,
    deleted: bool)

  datatype Parsed = Parsed(user: string, link: string, channel: string, tracking: string, product: string)

  const CHANNELS := ["web", "ios", "android"]

  predicate IsHex(c: char) {
    '0' <= c <= '9' || 'a' <= c <= 'f'
  }

  predicate IsHexAnyCase(c: char) {
    IsHex(c) || 'A' <= c <= 'F'
  }

  predicate IsWord(c: char) {
    'a' <= c <= 'z' || 'A' <= c <= 'Z' || '0' <= c <= '9' || c == '_'
  }

  /** 32 hexadecimal digits. */
  predicate Hex32(s: string) {
    |s| == 32 && forall c :: c in s ==> IsHexAnyCase(c)
  }

  /** `bb`, an optional underscore, then 20 to 32 word characters. */
  predicate TrackingText(s: string) {
    && |s| >= 2 && s[0] == 'b' && s[1] == 'b'
    && (forall c :: c in s[2..] ==> IsWord(c))
    && (20 <= |s| - 2 <= 32 || (21 <= |s| - 2 <= 33 && s[2] == '_'))
  }

  /** `parseAttribution(content)`. */
  function ParseAttribution(content: string): Result<Parsed> {
    var parts := Split(content, '-');
    if |parts| != 5 || !Hex32(parts[0]) || !Hex32(parts[1]) || !Hex32(parts[4])
       || parts[2] !in CHANNELS || !TrackingText(parts[3])
    then Err(Error.InvalidAttribution)
    else Ok(Parsed(parts[0], parts[1], parts[2], parts[3], parts[4]))
  }

  /** The utm a parsed attribution was read from. */
  lemma ParsedText(content: string)
    requires ParseAttribution(content).Ok?
    ensures var a := ParseAttribution(content).value;
      content == Join([a.user, a.link, a.channel, a.tracking, a.product], '-')
  {
    JoinSplit(content, '-');
    var parts := Split(content, '-');
    assert parts == [parts[0], parts[1], parts[2], parts[3], parts[4]];
  }

  function FindLink(links: seq<Link>, subId2: string): (r: Option<Link>)
    ensures r.Some? ==> r.value in links && r.value.subId2 == Some(subId2)
    ensures r.None? ==> forall l :: l in links ==> l.subId2 != Some(subId2)
  {
    if links == [] then None
    else if links[0].subId2 == Some(subId2) then Some(links[0])
    else FindLink(links[1..], subId2)
  }

  /** A saved link agrees with a parsed utm, underscores of the tracking part aside. */
  predicate Agrees(link: Link, a: Parsed) {
    && !link.deleted
    && Drop(link.userId, '-') == a.user
    && link.subId1 == Some(a.user)
    && Drop(link.productId, '-') == a.product
    && link.subId5 == Some(a.product)
    && link.subId3 == Some(a.channel)
    && link.subId4.Some? && Drop(link.subId4.value, '_') == Drop(a.tracking, '_')
  }

  /** Every row reports the same utm, and names the utm's user if it names one. */
  predicate OneUtm(rows: seq<Item>) {
    rows != [] && forall r :: r in rows ==> r.utm == rows[0].utm
  }

  predicate NamesUser(rows: seq<Item>, user: string) {
    forall r :: r in rows ==> r.subId1 == "" || r.subId1 == user
  }

  /** The link a checkout's rows are attributed to, if they are attributable. */
  function Attribute(links: seq<Link>, rows: seq<Item>): Option<Link> {
    if !OneUtm(rows) then None
    else
      var parsed := ParseAttribution(rows[0].utm);
      if parsed.Err? then None
      else
        var link := FindLink(links, parsed.value.link);
        if link.None? || !Agrees(link.value, parsed.value) || !NamesUser(rows, parsed.value.user) then None
        else link
  }

  ghost predicate UniqueSubId2(links: seq<Link>) {
    forall l, m :: l in links && m in links && l.subId2.Some? && l.subId2 == m.subId2 ==> l == m
  }

  /** 32 hexadecimal digits of any case. */
  ghost predicate Hexadecimal(s: string) {
    |s| == 32 && forall i :: 0 <= i < 32 ==> '0' <= s[i] <= '9' || 'a' <= s[i] <= 'f' || 'A' <= s[i] <= 'F'
  }

  ghost predicate Words(s: string) {
    20 <= |s| <= 32
    && forall c :: c in s ==> 'a' <= c <= 'z' || 'A' <= c <= 'Z' || '0' <= c <= '9' || c == '_'
  }

  /** The utm consists of these five parts. */
  ghost predicate Consists(utm: string, a: Parsed) {
    && utm == a.user + "-" + (a.link + "-" + (a.channel + "-" + (a.tracking + "-" + a.product)))
    && Hexadecimal(a.user) && Hexadecimal(a.link) && Hexadecimal(a.product)
    && a.channel in ["web", "ios", "android"]
    && exists w :: Words(w) && (a.tracking == "bb" + w || a.tracking == "bb_" + w)
  }

  lemma HexExact(s: string)
    ensures Hex32(s) <==> Hexadecimal(s)
    ensures Hex32(s) ==> '-' !in s
  {
    assert forall i :: 0 <= i < |s| ==> s[i] in s;
  }

  lemma TrackingExact(s: string)
    ensures TrackingText(s) <==> exists w :: Words(w) && (s == "bb" + w || s == "bb_" + w)
    ensures TrackingText(s) ==> '-' !in s
  {
    if TrackingText(s) { var w := TrackingWord(s); }
    if w :| Words(w) && (s == "bb" + w || s == "bb_" + w) { WordTracks(s, w); }
  }

  lemma TrackingWord(s: string) returns (w: string)
    requires TrackingText(s)
    ensures Words(w) && (s == "bb" + w || s == "bb_" + w)
    ensures '-' !in s
  {
    assert s == "bb" + s[2..];
    if |s| - 2 <= 32 {
      w := s[2..];
    } else {
      w := s[3..];
      assert s[2..] == "_" + w;
      assert forall c :: c in w ==> c in s[2..];
    }
  }

  lemma WordTracks(s: string, w: string)
    requires Words(w) && (s == "bb" + w || s == "bb_" + w)
    ensures TrackingText(s)
  {
    if s == "bb" + w { assert s[2..] == w; } else { assert s[2..] == "_" + w; }
  }

  lemma JoinFive(a: Parsed)
    ensures Join([a.user, a.link, a.channel, a.tracking, a.product], '-') ==
      a.user + "-" + (a.link + "-" + (a.channel + "-" + (a.tracking + "-" + a.product)))
  {
    hide Join;
    JoinNext(a.tracking, [a.product]);
    JoinNext(a.channel, [a.tracking, a.product]);
    JoinNext(a.link, [a.channel, a.tracking, a.product]);
    JoinNext(a.user, [a.link, a.channel, a.tracking, a.product]);
    JoinLast(a.product);
    assert [a.tracking] + [a.product] == [a.tracking, a.product];
    assert [a.channel] + [a.tracking, a.product] == [a.channel, a.tracking, a.product];
    assert [a.link] + [a.channel, a.tracking, a.product] == [a.link, a.channel, a.tracking, a.product];
    assert [a.user] + [a.link, a.channel, a.tracking, a.product] == [a.user, a.link, a.channel, a.tracking, a.product];
  }

  lemma JoinNext(head: string, rest: seq<string>)
    requires rest != []
    ensures Join([head] + rest, '-') == head + "-" + Join(rest, '-')
  {
    assert ([head] + rest)[1..] == rest;
  }

  lemma JoinLast(text: string)
    ensures Join([text], '-') == text
  {
  }

  /** A utm parses exactly if it consists of five such parts, and then into these. */
  lemma ParseExact(utm: string, a: Parsed)
    ensures ParseAttribution(utm) == Ok(a) <==> Consists(utm, a)
  {
    hide Hex32, TrackingText, Hexadecimal, Words, Join, Split;
    HexExact(a.user);
    HexExact(a.link);
    HexExact(a.product);
    TrackingExact(a.tracking);
    JoinFive(a);
    assert CHANNELS == ["web", "ios", "android"];
    if ParseAttribution(utm) == Ok(a) { ParsedText(utm); }
    if Consists(utm, a) {
      ChannelsHaveNoDash(a.channel);
      ParseFive(a.user, a.link, a.channel, a.tracking, a.product);
    }
  }

  /** The link was saved with these five parts, underscores of the tracking part aside, and is live. */
  ghost predicate SavedWith(link: Link, a: Parsed) {
    && !link.deleted
    && link.subId1 == Some(a.user) && a.user == Drop(link.userId, '-')
    && link.subId2 == Some(a.link)
    && link.subId3 == Some(a.channel)
    && link.subId4.Some? && Drop(link.subId4.value, '_') == Drop(a.tracking, '_')
    && link.subId5 == Some(a.product) && a.product == Drop(link.productId, '-')
  }

  /** Every row reports a utm of these parts, and no other user. */
  ghost predicate Reports(rows: seq<Item>, a: Parsed) {
    rows != [] && forall r :: r in rows ==> Consists(r.utm, a) && (r.subId1 == "" || r.subId1 == a.user)
  }

  /** `link` is what the rows name, part by part. */
  ghost predicate AttributedTo(links: seq<Link>, rows: seq<Item>, link: Link) {
    link in links && exists a :: Reports(rows, a) && SavedWith(link, a)
  }

  lemma ReportsExact(rows: seq<Item>, a: Parsed)
    ensures Reports(rows, a) <==> OneUtm(rows) && ParseAttribution(rows[0].utm) == Ok(a) && NamesUser(rows, a.user)
  {
    hide Consists, ParseAttribution;
    if rows != [] {
      assert rows[0] in rows;
      ParseExact(rows[0].utm, a);
      if Reports(rows, a) {
        forall r | r in rows ensures r.utm == rows[0].utm { SameText(r.utm, rows[0].utm, a); }
      }
    }
  }

  lemma SameText(utm: string, other: string, a: Parsed)
    requires Consists(utm, a) && Consists(other, a)
    ensures utm == other
  {
  }

  /** A checkout is attributed to a link exactly when all five saved parts agree with its utm, and to none otherwise. */
  lemma AttributionExact(links: seq<Link>, rows: seq<Item>, link: Link)
    requires UniqueSubId2(links)
    ensures Attribute(links, rows) == Some(link) <==> AttributedTo(links, rows, link)
    ensures Attribute(links, rows) == None <==> !exists l :: AttributedTo(links, rows, l)
  {
    forall l ensures Attribute(links, rows) == Some(l) <==> AttributedTo(links, rows, l) {
      AttributedLink(links, rows, l);
    }
    hide Attribute, AttributedTo;
  }

  lemma Attributable(links: seq<Link>, rows: seq<Item>)
    requires Attribute(links, rows).Some?
    ensures rows != [] && ParseAttribution(rows[0].utm).Ok?
  {
    hide ParseAttribution, Agrees, NamesUser;
  }

  lemma AttributedLink(links: seq<Link>, rows: seq<Item>, link: Link)
    requires UniqueSubId2(links)
    ensures Attribute(links, rows) == Some(link) <==> AttributedTo(links, rows, link)
  {
    hide OneUtm, NamesUser, ParseAttribution, Reports;
    if Attribute(links, rows) == Some(link) {
      Attributable(links, rows);
      ReportsExact(rows, ParseAttribution(rows[0].utm).value);
    }
    if AttributedTo(links, rows, link) {
      var a :| Reports(rows, a) && SavedWith(link, a);
      ReportsExact(rows, a);
    }
  }

  /** Attribution depends on the rows as a multiset. */
  lemma AttributionPermutation(links: seq<Link>, a: seq<Item>, b: seq<Item>)
    requires multiset(a) == multiset(b)
    ensures Attribute(links, a) == Attribute(links, b)
  {
    assert forall r :: r in a <==> r in multiset(a);
    assert forall r :: r in b <==> r in multiset(b);
    if a != [] && b != [] {
      assert a[0] in b && b[0] in a;
    }
  }

  /** UUID text (section 4 of RFC 9562), lower case: 8-4-4-4-12 hexadecimal digits. */
  predicate IsUuid(s: string) {
    && |s| == 36
    && forall i :: 0 <= i < 36 ==> if i in {8, 13, 18, 23} then s[i] == '-' else IsHex(s[i])
  }

  lemma {:induction false} DropAbsent(s: string, c: char, t: string)
    requires c !in s
    ensures Drop(s + [c] + t, c) == s + Drop(t, c)
  {
    DropConcat(s + [c], t, c);
    DropConcat(s, [c], c);
    assert Drop([c], c) == Drop([], c);
  }

  /** A UUID without its dashes is 32 lower-case hexadecimal digits. */
  lemma UuidDigits(s: string)
    requires IsUuid(s)
    ensures |Drop(s, '-')| == 32
    ensures forall c :: c in Drop(s, '-') ==> IsHex(c)
  {
    var p0, p1, p2, p3, p4 := s[..8], s[9..13], s[14..18], s[19..23], s[24..];
    assert s == p0 + ['-'] + (p1 + ['-'] + (p2 + ['-'] + (p3 + ['-'] + p4)));
    DropAbsent(p3, '-', p4);
    DropAbsent(p2, '-', p3 + ['-'] + p4);
    DropAbsent(p1, '-', p2 + ['-'] + (p3 + ['-'] + p4));
    DropAbsent(p0, '-', p1 + ['-'] + (p2 + ['-'] + (p3 + ['-'] + p4)));
    assert Drop(s, '-') == p0 + (p1 + (p2 + (p3 + p4)));
  }

  /** The link saved by `generateLinkBySystem`; `trackingId` is the random UUID behind sub-id 4. */
  function GeneratedLink(userId: string, linkId: string, channel: Option<string>, trackingId: string,
        productId: string): Link {
    Link(linkId, userId, productId,
         Some(Drop(userId, '-')), Some(Drop(linkId, '-')), channel,
         Some("bb_" + Drop(trackingId, '-')), Some(Drop(productId, '-')), false)
  }

  /** The sub-ids joined into the generated link; an absent channel prints as an empty part. */
  function PrintedUtm(userId: string, linkId: string, channel: Option<string>, trackingId: string,
        productId: string): string {
    Join([Drop(userId, '-'), Drop(linkId, '-'), if channel.Some? then channel.value else "",
          "bb_" + Drop(trackingId, '-'), Drop(productId, '-')], '-')
  }

  /** The same utm after the provider dropped the tracking underscore. */
  function PrintedUtmDropped(userId: string, linkId: string, channel: Option<string>, trackingId: string,
        productId: string): string {
    Join([Drop(userId, '-'), Drop(linkId, '-'), if channel.Some? then channel.value else "",
          "bb" + Drop(trackingId, '-'), Drop(productId, '-')], '-')
  }

  lemma TrackingParses(trackingId: string)
    requires IsUuid(trackingId)
    ensures TrackingText("bb_" + Drop(trackingId, '-')) && '-' !in "bb_" + Drop(trackingId, '-')
    ensures TrackingText("bb" + Drop(trackingId, '-')) && '-' !in "bb" + Drop(trackingId, '-')
    ensures Drop("bb_" + Drop(trackingId, '-'), '_') == "bb" + Drop(trackingId, '-')
    ensures Drop("bb" + Drop(trackingId, '-'), '_') == "bb" + Drop(trackingId, '-')
  {
    var d := Drop(trackingId, '-');
    UuidDigits(trackingId);
    assert ("bb_" + d)[2..] == "_" + d;
    assert ("bb" + d)[2..] == d;
    assert '_' !in "bb" + d;
    assert "bb_" + d == "bb" + ['_'] + d;
    DropAbsent("bb", '_', d);
  }

  lemma ParseFive(p0: string, p1: string, p2: string, p3: string, p4: string)
    requires '-' !in p0 && '-' !in p1 && '-' !in p2 && '-' !in p3 && '-' !in p4
    requires Hex32(p0) && Hex32(p1) && TrackingText(p3) && Hex32(p4)
    ensures var r := ParseAttribution(Join([p0, p1, p2, p3, p4], '-'));
      && (r.Ok? <==> p2 in CHANNELS)
      && (r.Ok? ==> r.value == Parsed(p0, p1, p2, p3, p4))
  {
    SplitJoin([p0, p1, p2, p3, p4], '-');
  }

  lemma ChannelsHaveNoDash(c: string)
    requires c in CHANNELS
    ensures '-' !in c
  {
  }

  /**
   * Parsing the utm of a generated link, with the tracking underscore kept or dropped, gives back its
   * five parts. It fails exactly when the link was generated without one of the three channels.
   */
  lemma PrintParse(userId: string, linkId: string, channel: Option<string>, trackingId: string, productId: string)
    requires IsUuid(userId) && IsUuid(linkId) && IsUuid(trackingId) && IsUuid(productId)
    requires channel.Some? ==> channel.value in CHANNELS
    ensures var kept := ParseAttribution(PrintedUtm(userId, linkId, channel, trackingId, productId));
      && (kept.Ok? <==> channel.Some?)
      && (channel.Some? ==> kept.value == Parsed(Drop(userId, '-'), Drop(linkId, '-'), channel.value,
                                                 "bb_" + Drop(trackingId, '-'), Drop(productId, '-')))
    ensures var dropped := ParseAttribution(PrintedUtmDropped(userId, linkId, channel, trackingId, productId));
      && (dropped.Ok? <==> channel.Some?)
      && (channel.Some? ==> dropped.value == Parsed(Drop(userId, '-'), Drop(linkId, '-'), channel.value,
                                                    "bb" + Drop(trackingId, '-'), Drop(productId, '-')))
  {
    UuidDigits(userId);
    UuidDigits(linkId);
    UuidDigits(productId);
    TrackingParses(trackingId);
    var c := if channel.Some? then channel.value else "";
    if channel.Some? { ChannelsHaveNoDash(c); }
    assert "" !in CHANNELS;
    ParseFive(Drop(userId, '-'), Drop(linkId, '-'), c, "bb_" + Drop(trackingId, '-'), Drop(productId, '-'));
    ParseFive(Drop(userId, '-'), Drop(linkId, '-'), c, "bb" + Drop(trackingId, '-'), Drop(productId, '-'));
  }

  /** Rows that report a generated link's utm are attributed to that saved link. */
  lemma GeneratedLinkRoundTrip(links: seq<Link>, rows: seq<Item>,
      userId: string, linkId: string, channel: string, trackingId: string, productId: string)
    requires IsUuid(userId) && IsUuid(linkId) && IsUuid(trackingId) && IsUuid(productId) && channel in CHANNELS
    requires UniqueSubId2(links)
    requires GeneratedLink(userId, linkId, Some(channel), trackingId, productId) in links
    requires rows != [] && NamesUser(rows, Drop(userId, '-'))
    requires
      || (forall r :: r in rows ==> r.utm == PrintedUtm(userId, linkId, Some(channel), trackingId, productId))
      || (forall r :: r in rows ==> r.utm == PrintedUtmDropped(userId, linkId, Some(channel), trackingId, productId))
    ensures Attribute(links, rows) == Some(GeneratedLink(userId, linkId, Some(channel), trackingId, productId))
  {
    PrintParse(userId, linkId, Some(channel), trackingId, productId);
    TrackingParses(trackingId);
    var link := GeneratedLink(userId, linkId, Some(channel), trackingId, productId);
    AttributionExact(links, rows, link);
    assert rows[0] in rows;
    hide PrintedUtm, PrintedUtmDropped;
    ReportsExact(rows, ParseAttribution(rows[0].utm).value);
  }
}
