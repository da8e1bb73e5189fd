/** The pan filter expressions handed to the transcoder for Rush 2049: a
    5.1 layout whose outputs c0-c4 are each defined from source channels,
    kept as symbolic data together with its textual rendering. */
module PanMap {
  import opened Wrappers

  /** A channel index. References are written as one digit: a 5.1 layout
      has six outputs and the probed sources have at most four channels. */
  type Channel = c: nat | c < 10

  /** `=` sets an output to the expression as written; `<` asks the filter
      to renormalise the expression's gains so that their total is 1. */
  datatype Op = Assign | Normalize

  /** One `|c<output><op>c<source>+c<source>...` clause of the filter. */
  datatype PanEntry = PanEntry(output: Channel, op: Op, sources: seq<Channel>)

  /** Every filter reads the first audio stream and produces a 5.1 layout. */
  const Prefix: string := "[0:a]pan=5.1"

  predicate IsDigit(ch: char) {
    '0' <= ch <= '9'
  }

  function DigitChar(d: Channel): (ch: char)
    ensures IsDigit(ch) && ch as int - '0' as int == d
  {
    (d + '0' as int) as char
  }

  function OpChar(op: Op): char {
    match op
    case Assign => '='
    case Normalize => '<'
  }

  function OpOf(ch: char): (r: Option<Op>)
    ensures r.Some? <==> ch == '=' || ch == '<'
    ensures r.Some? ==> OpChar(r.value) == ch
  {
    if ch == '=' then Some(Assign)
    else if ch == '<' then Some(Normalize)
    else None
  }

  /** A clause must read at least one source channel. */
  predicate ValidEntry(e: PanEntry) {
    |e.sources| > 0
  }

  predicate ValidMap(m: seq<PanEntry>) {
    forall i :: 0 <= i < |m| ==> ValidEntry(m[i])
  }

  function ChannelRef(c: Channel): string {
    ['c', DigitChar(c)]
  }

  /** The `+`-joined list of source references. */
  function RenderSources(srcs: seq<Channel>): string {
    if srcs == [] then ""
    else if |srcs| == 1 then ChannelRef(srcs[0])
    else ChannelRef(srcs[0]) + "+" + RenderSources(srcs[1..])
  }

  function RenderEntry(e: PanEntry): string {
    "|" + ChannelRef(e.output) + [OpChar(e.op)] + RenderSources(e.sources)
  }

  function RenderEntries(m: seq<PanEntry>): string {
    if m == [] then "" else RenderEntry(m[0]) + RenderEntries(m[1..])
  }

  /** The `-filter_complex` argument for a pan map. */
  function Render(m: seq<PanEntry>): string {
    Prefix + RenderEntries(m)
  }

  // ---------------------------------------------------------------------
  // Reading a filter expression back. Each parser returns what it read and
  // the unread rest, and promises that rendering what it read in front of
  // the rest gives back its input.
  // ---------------------------------------------------------------------

  function ParseRef(s: string): (r: Option<(Channel, string)>)
    ensures r.Some? ==> s == ChannelRef(r.value.0) + r.value.1 && |r.value.1| == |s| - 2
  {
    if |s| >= 2 && s[0] == 'c' && IsDigit(s[1]) then
      var c: Channel := s[1] as int - '0' as int;
      assert s == ChannelRef(c) + s[2..];
      Some((c, s[2..]))
    else None
  }

  function ParseSources(s: string): (r: Option<(seq<Channel>, string)>)
    ensures r.Some? ==> |r.value.0| > 0 && s == RenderSources(r.value.0) + r.value.1
    decreases |s|
  {
    match ParseRef(s)
    case None => None
    case Some((c, rest)) =>
      if |rest| > 0 && rest[0] == '+' then
        match ParseSources(rest[1..])
        case None => None
        case Some((cs, tail)) =>
          JoinSources(s, c, rest, cs, tail);
          Some(([c] + cs, tail))
      else Some(([c], rest))
  }

  /** A reference, a `+` and a non-empty source list read as one list. */
  lemma JoinSources(s: string, c: Channel, rest: string, cs: seq<Channel>, tail: string)
    requires |cs| > 0
    requires s == ChannelRef(c) + rest
    requires |rest| > 0 && rest[0] == '+'
    requires rest[1..] == RenderSources(cs) + tail
    ensures s == RenderSources([c] + cs) + tail
  {
    assert rest == "+" + rest[1..];
    RenderSourcesCons(c, cs);
    ConcatAssoc(ChannelRef(c), "+", RenderSources(cs), tail);
  }

  /** Rendering a reference in front of a non-empty source list. */
  lemma RenderSourcesCons(c: Channel, cs: seq<Channel>)
    requires |cs| > 0
    ensures RenderSources([c] + cs) == ChannelRef(c) + "+" + RenderSources(cs)
  {
    assert ([c] + cs)[1..] == cs;
  }

  lemma ConcatAssoc(a: string, b: string, c: string, d: string)
    ensures a + b + c + d == a + (b + (c + d))
  {
  }

  function ParseEntry(s: string): (r: Option<(PanEntry, string)>)
    ensures r.Some? ==> ValidEntry(r.value.0) && s == RenderEntry(r.value.0) + r.value.1
  {
    if |s| > 0 && s[0] == '|' then
      match ParseRef(s[1..])
      case None => None
      case Some((out, r1)) =>
        if |r1| > 0 && OpOf(r1[0]).Some? then
          match ParseSources(r1[1..])
          case None => None
          case Some((srcs, r2)) =>
            var e := PanEntry(out, OpOf(r1[0]).value, srcs);
            JoinEntry(s, r1, e, r2);
            Some((e, r2))
        else None
    else None
  }

  /** A bar, an output reference, an operator and a source list read as
      one clause. */
  lemma JoinEntry(s: string, r1: string, e: PanEntry, r2: string)
    requires |s| > 0 && s[0] == '|' && s[1..] == ChannelRef(e.output) + r1
    requires |r1| > 0 && r1[0] == OpChar(e.op) && r1[1..] == RenderSources(e.sources) + r2
    ensures s == RenderEntry(e) + r2
  {
    assert s == "|" + s[1..];
    assert r1 == [OpChar(e.op)] + r1[1..];
  }

  function ParseEntries(s: string): (r: Option<seq<PanEntry>>)
    ensures r.Some? ==> ValidMap(r.value) && s == RenderEntries(r.value)
    decreases |s|
  {
    if s == [] then Some([])
    else
      match ParseEntry(s)
      case None => None
      case Some((e, rest)) =>
        match ParseEntries(rest)
        case None => None
        case Some(es) =>
          var m := [e] + es;
          assert m[1..] == es;
          Some(m)
  }

  /** Reads a `-filter_complex` argument back into a pan map. */
  function Parse(s: string): (r: Option<seq<PanEntry>>)
    ensures r.Some? ==> ValidMap(r.value) && Render(r.value) == s
  {
    if |s| >= |Prefix| && s[..|Prefix|] == Prefix then
      assert s == Prefix + s[|Prefix|..];
      ParseEntries(s[|Prefix|..])
    else None
  }

  lemma ParseRefRender(c: Channel, rest: string)
    ensures ParseRef(ChannelRef(c) + rest) == Some((c, rest))
  {
    assert (ChannelRef(c) + rest)[2..] == rest;
  }

  lemma {:induction false} ParseSourcesRender(srcs: seq<Channel>, rest: string)
    requires |srcs| > 0
    requires rest == [] || rest[0] != '+'
    ensures ParseSources(RenderSources(srcs) + rest) == Some((srcs, rest))
    decreases |srcs|
  {
    var s := RenderSources(srcs) + rest;
    if |srcs| == 1 {
      assert s == ChannelRef(srcs[0]) + rest;
      ParseRefRender(srcs[0], rest);
      assert srcs == [srcs[0]];
    } else {
      var tail := RenderSources(srcs[1..]) + rest;
      assert s == ChannelRef(srcs[0]) + ("+" + tail);
      ParseRefRender(srcs[0], "+" + tail);
      assert ("+" + tail)[1..] == tail;
      ParseSourcesRender(srcs[1..], rest);
      assert [srcs[0]] + srcs[1..] == srcs;
    }
  }

  lemma ParseEntryRender(e: PanEntry, rest: string)
    requires ValidEntry(e)
    requires rest == [] || rest[0] == '|'
    ensures ParseEntry(RenderEntry(e) + rest) == Some((e, rest))
  {
    var s := RenderEntry(e) + rest;
    var r2 := RenderSources(e.sources) + rest;
    var r1 := [OpChar(e.op)] + r2;
    assert s == "|" + (ChannelRef(e.output) + r1);
    assert s[0] == '|';
    assert s[1..] == ChannelRef(e.output) + r1;
    ParseRefRender(e.output, r1);
    assert r1[0] == OpChar(e.op);
    assert OpOf(r1[0]) == Some(e.op);
    assert r1[1..] == r2;
    ParseSourcesRender(e.sources, rest);
  }

  lemma {:induction false} ParseEntriesRender(m: seq<PanEntry>)
    requires ValidMap(m)
    ensures ParseEntries(RenderEntries(m)) == Some(m)
    decreases |m|
  {
    if m != [] {
      var rest := RenderEntries(m[1..]);
      RenderEntriesStart(m[1..]);
      ParseEntryRender(m[0], rest);
      ParseEntriesRender(m[1..]);
      assert [m[0]] + m[1..] == m;
    }
  }

  /** A rendered clause list is empty or starts with a bar. */
  lemma RenderEntriesStart(m: seq<PanEntry>)
    ensures RenderEntries(m) == [] || RenderEntries(m)[0] == '|'
  {
    if m != [] {
      assert RenderEntries(m) == RenderEntry(m[0]) + RenderEntries(m[1..]);
    }
  }

  /** Rendering and parsing are inverse: every valid map is read back from
      its rendering, and (by the contract of `Parse`) every expression the
      parser accepts is the rendering of the map it reads. */
  lemma ParseRender(m: seq<PanEntry>)
    requires ValidMap(m)
    ensures Parse(Render(m)) == Some(m)
  {
    assert Render(m)[..|Prefix|] == Prefix;
    assert Render(m)[|Prefix|..] == RenderEntries(m);
    ParseEntriesRender(m);
  }

  /** Two valid maps with the same rendering are the same map. */
  lemma RenderInjective(m1: seq<PanEntry>, m2: seq<PanEntry>)
    requires ValidMap(m1) && ValidMap(m2)
    requires Render(m1) == Render(m2)
    ensures m1 == m2
  {
    ParseRender(m1);
    ParseRender(m2);
  }

  // ---------------------------------------------------------------------
  // The three maps the script uses, chosen by the probed channel count.
  // ---------------------------------------------------------------------

  /** The outputs each map defines, in the order the script writes them.
      Output 5 is never defined. */
  const OutputOrder: seq<Channel> := [0, 1, 4, 2, 3]

  /** The one output defined as a normalised mix of all source channels. */
  const MixedOutput: Channel := 4

  /** Mono source: every defined output reads c0. */
  const MonoMap: seq<PanEntry> := [
    PanEntry(0, Assign, [0]), PanEntry(1, Assign, [0]), PanEntry(4, Normalize, [0]),
    PanEntry(2, Assign, [0]), PanEntry(3, Assign, [0])]

  /** Stereo source: c0 and c2 copy source 0, c1 and c3 copy source 1, c4
      mixes both. */
  const StereoMap: seq<PanEntry> := [
    PanEntry(0, Assign, [0]), PanEntry(1, Assign, [1]), PanEntry(4, Normalize, [0, 1]),
    PanEntry(2, Assign, [0]), PanEntry(3, Assign, [1])]

  /** Quadraphonic source: outputs 0-3 copy sources 0-3, c4 mixes all four. */
  const QuadMap: seq<PanEntry> := [
    PanEntry(0, Assign, [0]), PanEntry(1, Assign, [1]), PanEntry(4, Normalize, [0, 1, 2, 3]),
    PanEntry(2, Assign, [2]), PanEntry(3, Assign, [3])]

  /** The map for a source of `channels` channels, if the script has one. */
  function MapFor(channels: nat): (r: Option<seq<PanEntry>>)
    ensures r.Some? <==> channels == 1 || channels == 2 || channels == 4
  {
    if channels == 1 then Some(MonoMap)
    else if channels == 2 then Some(StereoMap)
    else if channels == 4 then Some(QuadMap)
    else None
  }

  /** The three maps are valid: every clause reads at least one source. */
  lemma MapsValid()
    ensures ValidMap(MonoMap) && ValidMap(StereoMap) && ValidMap(QuadMap)
  {
  }

  /** Source channels 0 to n-1, in order. */
  function AllChannels(n: nat): (r: seq<Channel>)
    requires n <= 10
    ensures |r| == n && forall i :: 0 <= i < n ==> r[i] == i
  {
    seq(n, i requires 0 <= i < n => i)
  }

  /** The rule the three maps follow: output 4 is the normalised mix of
      every source channel, and each other output copies source channel
      `output mod n`, so sources repeat round-robin across outputs 0-3. */
  function RuleEntry(output: Channel, n: nat): PanEntry
    requires 0 < n <= 10
  {
    if output == MixedOutput then PanEntry(output, Normalize, AllChannels(n))
    else PanEntry(output, Assign, [output % n])
  }

  /** Each of the script's maps is the rule applied to the outputs in order. */
  lemma MapFollowsRule(n: nat)
    requires n == 1 || n == 2 || n == 4
    ensures MapFor(n) == Some(seq(|OutputOrder|, i requires 0 <= i < |OutputOrder| => RuleEntry(OutputOrder[i], n)))
  {
    var expected := seq(|OutputOrder|, i requires 0 <= i < |OutputOrder| => RuleEntry(OutputOrder[i], n));
    assert AllChannels(1) == [0];
    assert AllChannels(2) == [0, 1];
    assert AllChannels(4) == [0, 1, 2, 3];
    assert MapFor(n).value == expected;
  }

  /** The shape every map has: it is valid, it defines outputs 0, 1, 4, 2, 3
      in that order and never output 5, every source it reads exists in the
      probed stream, output 4 is the normalised mix of all sources and every
      other output copies the single source `output mod n` (so with stereo c2
      reads c0 and c3 reads c1, and with quadraphonic c2 and c3 read c2 and c3). */
  lemma MapShape(n: nat)
    requires MapFor(n).Some?
    ensures var m := MapFor(n).value;
      && ValidMap(m)
      && |m| == |OutputOrder|
      && (forall i :: 0 <= i < |m| ==> m[i].output == OutputOrder[i])
      && (forall i :: 0 <= i < |m| ==> m[i].output != 5)
      && (forall i, j :: 0 <= i < |m| && 0 <= j < |m[i].sources| ==> m[i].sources[j] < n)
      && (forall i :: 0 <= i < |m| && m[i].output == MixedOutput ==>
            m[i].op == Normalize && m[i].sources == AllChannels(n))
      && (forall i :: 0 <= i < |m| && m[i].output != MixedOutput ==>
            m[i].op == Assign && m[i].sources == [m[i].output % n])
  {
    MapFollowsRule(n);
  }

  /** With a mono source every defined output reads only c0. */
  lemma MonoReadsOnlyFirst()
    ensures MapFor(1) == Some(MonoMap)
    ensures forall i, j :: 0 <= i < |MonoMap| && 0 <= j < |MonoMap[i].sources| ==>
              MonoMap[i].sources[j] == 0
  {
  }

  /** The rendered maps are the script's literal filter strings, written
      here clause by clause. */
  lemma RenderedLiterals()
    ensures Render(MonoMap) == "[0:a]pan=5.1" + "|c0=c0" + "|c1=c0" + "|c4<c0" + "|c2=c0" + "|c3=c0"
    ensures Render(StereoMap) == "[0:a]pan=5.1" + "|c0=c0" + "|c1=c1" + "|c4<c0+c1" + "|c2=c0" + "|c3=c1"
    ensures Render(QuadMap) == "[0:a]pan=5.1" + "|c0=c0" + "|c1=c1" + "|c4<c0+c1+c2+c3" + "|c2=c2" + "|c3=c3"
  {
    RenderedMono(MonoMap);
    RenderedStereo(StereoMap);
    RenderedQuad(QuadMap);
  }

  lemma RenderedMono(m: seq<PanEntry>)
    requires m == MonoMap
    ensures Render(m) == "[0:a]pan=5.1" + "|c0=c0" + "|c1=c0" + "|c4<c0" + "|c2=c0" + "|c3=c0"
  {
    assert RenderEntry(m[0]) == "|c0=c0" by { SingleSourceText(m[0]); }
    assert RenderEntry(m[1]) == "|c1=c0" by { SingleSourceText(m[1]); }
    assert RenderEntry(m[2]) == "|c4<c0" by { SingleSourceText(m[2]); }
    assert RenderEntry(m[3]) == "|c2=c0" by { SingleSourceText(m[3]); }
    assert RenderEntry(m[4]) == "|c3=c0" by { SingleSourceText(m[4]); }
    RenderFive(m, "|c0=c0", "|c1=c0", "|c4<c0", "|c2=c0", "|c3=c0");
  }

  lemma RenderedStereo(m: seq<PanEntry>)
    requires m == StereoMap
    ensures Render(m) == "[0:a]pan=5.1" + "|c0=c0" + "|c1=c1" + "|c4<c0+c1" + "|c2=c0" + "|c3=c1"
  {
    assert RenderEntry(m[0]) == "|c0=c0" by { SingleSourceText(m[0]); }
    assert RenderEntry(m[1]) == "|c1=c1" by { SingleSourceText(m[1]); }
    assert RenderEntry(m[2]) == "|c4<c0+c1" by { StereoSourcesText(m[2].sources); }
    assert RenderEntry(m[3]) == "|c2=c0" by { SingleSourceText(m[3]); }
    assert RenderEntry(m[4]) == "|c3=c1" by { SingleSourceText(m[4]); }
    RenderFive(m, "|c0=c0", "|c1=c1", "|c4<c0+c1", "|c2=c0", "|c3=c1");
  }

  lemma RenderedQuad(m: seq<PanEntry>)
    requires m == QuadMap
    ensures Render(m) == "[0:a]pan=5.1" + "|c0=c0" + "|c1=c1" + "|c4<c0+c1+c2+c3" + "|c2=c2" + "|c3=c3"
  {
    assert RenderEntry(m[0]) == "|c0=c0" by { SingleSourceText(m[0]); }
    assert RenderEntry(m[1]) == "|c1=c1" by { SingleSourceText(m[1]); }
    assert RenderEntry(m[2]) == "|c4<c0+c1+c2+c3" by { QuadSourcesText(m[2].sources); }
    assert RenderEntry(m[3]) == "|c2=c2" by { SingleSourceText(m[3]); }
    assert RenderEntry(m[4]) == "|c3=c3" by { SingleSourceText(m[4]); }
    RenderFive(m, "|c0=c0", "|c1=c1", "|c4<c0+c1+c2+c3", "|c2=c2", "|c3=c3");
  }

  /** The six characters of a clause that reads one source channel. */
  lemma SingleSourceText(e: PanEntry)
    requires |e.sources| == 1
    ensures RenderEntry(e) == ['|', 'c', DigitChar(e.output), OpChar(e.op), 'c', DigitChar(e.sources[0])]
  {
  }

  /** The stereo mix's source list, spelled out. */
  lemma StereoSourcesText(srcs: seq<Channel>)
    requires srcs == [0, 1]
    ensures RenderSources(srcs) == "c0+c1"
  {
    assert srcs[1..] == [1];
  }

  /** The quadraphonic mix's source list, spelled out. */
  lemma QuadSourcesText(srcs: seq<Channel>)
    requires srcs == [0, 1, 2, 3]
    ensures RenderSources(srcs) == "c0+c1+c2+c3"
  {
    assert srcs[3..] == [3];
    assert srcs[2..][1..] == srcs[3..];
    assert srcs[1..][1..] == srcs[2..];
    assert RenderSources(srcs[2..]) == "c2+c3";
    assert RenderSources(srcs[1..]) == "c1+c2+c3";
  }

  /** Rendering a five-entry map is its prefix followed by the five clauses. */
  lemma RenderFive(m: seq<PanEntry>, a: string, b: string, c: string, d: string, e: string)
    requires |m| == 5
    requires RenderEntry(m[0]) == a && RenderEntry(m[1]) == b && RenderEntry(m[2]) == c
    requires RenderEntry(m[3]) == d && RenderEntry(m[4]) == e
    ensures Render(m) == "[0:a]pan=5.1" + a + b + c + d + e
  {
    var r4 := RenderEntries(m[4..]);
    var r3 := RenderEntries(m[3..]);
    var r2 := RenderEntries(m[2..]);
    var r1 := RenderEntries(m[1..]);
    assert r4 == RenderEntry(m[4]) by {
      assert m[4..] == [m[4]];
      assert RenderEntries([m[4]]) == RenderEntry(m[4]) + RenderEntries([]);
    }
    assert r3 == RenderEntry(m[3]) + r4 by {
      assert m[3..][1..] == m[4..];
    }
    assert r2 == RenderEntry(m[2]) + r3 by {
      assert m[2..][1..] == m[3..];
    }
    assert r1 == RenderEntry(m[1]) + r2 by {
      assert m[1..][1..] == m[2..];
    }
  }
}
