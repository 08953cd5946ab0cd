/** The network interface of a printed domain is read back as it was configured. */
module NetworkRoundTrip {
  import opened Text
  import opened DomainDescription
  import opened DomainText
  import opened DomainRoundTrip

  // ------------------------------------------------- nothing before it looks like an interface

  predicate StartsOther(t: Tag, c: char) {
    t.Close? || (|t.body| > 0 && t.body[0] != c)
  }

  lemma CloseSkips(t: Tag, sub: string)
    requires t.Close? && NoChar(t.body, '<') && NoChar(t.after, '<')
    requires |sub| >= 2 && sub[0] == '<' && sub[1] != '/'
    ensures Skips(TagText(t), sub)
  {
    TagRestText(t);
    assert TagText(t)[1] == '/';
    hide TagRest;
  }

  lemma {:induction false} RenderSkips(tags: seq<Tag>, sub: string)
    requires |sub| >= 2 && sub[0] == '<' && sub[1] != '/'
    requires AllPlain(tags) && forall i :: 0 <= i < |tags| ==> StartsOther(tags[i], sub[1])
    ensures Skips(Render(tags), sub)
  {
    if tags != [] {
      hide Skips, TagText;
      assert PlainTag(tags[0]) && StartsOther(tags[0], sub[1]);
      PlainNoLt(tags[0].body);
      PlainNoLt(tags[0].after);
      if tags[0].Close? {
        CloseSkips(tags[0], sub);
      } else {
        TagSkips(tags[0], sub);
      }
      RenderSkips(tags[1..], sub);
      SkipsConcat(TagText(tags[0]), Render(tags[1..]), sub);
    } else {
      assert Skips("", sub);
    }
  }

  lemma SizingStarts(cfg: VMConfig)
    ensures forall i :: 0 <= i < |SizingTags(cfg)| ==> StartsOther(SizingTags(cfg)[i], 'i')
  {
    hide Dec;
  }

  lemma OsStarts()
    ensures forall i :: 0 <= i < |OS_TAGS| ==> StartsOther(OS_TAGS[i], 'i')
  {
  }

  lemma FeatureStarts()
    ensures forall i :: 0 <= i < |FEATURE_TAGS| ==> StartsOther(FEATURE_TAGS[i], 'i')
  {
  }

  lemma SettingsSkip(cfg: VMConfig, sub: string)
    requires |sub| >= 2 && sub[0] == '<' && sub[1] == 'i'
    ensures Skips(Render(SettingTags(cfg)), sub)
  {
    SizingPlain(cfg);
    OsPlain();
    FeaturePlain();
    SizingStarts(cfg);
    OsStarts();
    FeatureStarts();
    hide SizingTags, PlainTag, StartsOther, Skips;
    RenderSkips(SettingTags(cfg), sub);
  }

  lemma HeaderSkips(cfg: VMConfig, sub: string)
    requires NoChar(cfg.name, '<') && |sub| >= 2 && sub[0] == '<' && sub[1] == 'i'
    ensures Skips(Header(cfg), sub)
  {
    hide Skips, TagText, Render, SettingTags;
    BeforeMemorySkips(cfg, sub);
    SettingsSkip(cfg, sub);
    SkipsConcat(BeforeMemory(cfg), Render(SettingTags(cfg)), sub);
    Reassoc4(TagText(DOMAIN_TAG), TagText(Open("name", cfg.name)), TagText(NAME_CLOSE), Render(SettingTags(cfg)));
  }

  lemma Reassoc4(a: string, b: string, c: string, d: string)
    ensures a + b + (c + d) == a + b + c + d
  {
  }

  lemma FragmentEndSkips(target: string, sub: string)
    requires NoChar(target, '<') && |sub| >= 2 && sub[0] == '<' && sub[1] == 'i'
    ensures Skips(TARGET_OPEN + target + TARGET_CLOSE + DISK_CLOSE, sub)
  {
    assert Skips(TARGET_OPEN, sub) && Skips(DISK_CLOSE, sub) && NoChar(TARGET_CLOSE, '<');
    hide *;
    NoLtSkips(target, sub);
    NoLtSkips(TARGET_CLOSE, sub);
    SkipsConcat(TARGET_OPEN, target, sub);
    SkipsConcat(TARGET_OPEN + target, TARGET_CLOSE, sub);
    SkipsConcat(TARGET_OPEN + target + TARGET_CLOSE, DISK_CLOSE, sub);
  }

  lemma DiskSkips(path: string, target: string, sub: string)
    requires NoChar(path, '<') && NoChar(target, '<') && |sub| >= 2 && sub[0] == '<' && sub[1] == 'i'
    ensures Skips(DiskXml(path, target), sub)
  {
    hide Skips, NoChar;
    PathSkips(path, sub);
    FragmentEndSkips(target, sub);
    var front, back := DISK_PREFIX + path + SOURCE_CLOSE, TARGET_OPEN + target + TARGET_CLOSE + DISK_CLOSE;
    SkipsConcat(front, back, sub);
    DiskParts(DISK_PREFIX + path, SOURCE_CLOSE, TARGET_OPEN, target, TARGET_CLOSE, DISK_CLOSE);
  }

  lemma DiskParts(a: string, b: string, c: string, d: string, e: string, f: string)
    ensures a + (b + c + d + e + f) == a + b + (c + d + e + f)
  {
  }

  lemma {:induction false} ExtrasSkip(ds: seq<DiskDevice>, i: nat, sub: string)
    requires i <= |ds| && forall k :: 0 <= k < |ds| ==> TaglessDisk(ds[k])
    requires |sub| >= 2 && sub[0] == '<' && sub[1] == 'i'
    ensures Skips(ExtrasXml(ds, i), sub)
    decreases |ds| - i
  {
    if i == |ds| {
      assert Skips("", sub);
    } else {
      assert TaglessDisk(ds[i]) && Skips("\n    ", sub);
      hide Skips, DiskXml, TargetOf, NoChar;
      ExtrasSkip(ds, i + 1, sub);
      if ds[i].path != "" {
        TargetTagless(ds[i], i);
        var d := DiskXml(ds[i].path, TargetOf(ds[i], i));
        DiskSkips(ds[i].path, TargetOf(ds[i], i), sub);
        SkipsConcat("\n    ", d, sub);
        SkipsConcat("\n    " + d, ExtrasXml(ds, i + 1), sub);
      }
    }
  }

  lemma DisksSkip(cfg: VMConfig, sub: string)
    requires TaglessConfig(cfg) && |sub| >= 2 && sub[0] == '<' && sub[1] == 'i'
    ensures Skips(DisksXml(cfg), sub)
  {
    assert Skips("    ", sub) && NoChar("vda", '<');
    hide Skips, DiskXml, ExtrasXml, NoChar;
    DiskSkips(cfg.diskPath, "vda", sub);
    ExtrasSkip(cfg.extraDisks, 0, sub);
    SkipsConcat("    ", DiskXml(cfg.diskPath, "vda"), sub);
    SkipsConcat("    " + DiskXml(cfg.diskPath, "vda"), ExtrasXml(cfg.extraDisks, 0), sub);
  }

  function BeforeNic(cfg: VMConfig): string {
    Header(cfg) + DisksXml(cfg) + "\n" + "    "
  }

  lemma BeforeNicSkips(cfg: VMConfig)
    requires TaglessConfig(cfg)
    ensures Skips(BeforeNic(cfg), NIC_OPEN)
  {
    assert NIC_OPEN[0] == '<' && NIC_OPEN[1] == 'i' && Skips("\n", NIC_OPEN) && Skips("    ", NIC_OPEN);
    hide Skips, Header, DisksXml;
    HeaderSkips(cfg, NIC_OPEN);
    DisksSkip(cfg, NIC_OPEN);
    SkipsConcat(Header(cfg), DisksXml(cfg), NIC_OPEN);
    SkipsConcat(Header(cfg) + DisksXml(cfg), "\n", NIC_OPEN);
    SkipsConcat(Header(cfg) + DisksXml(cfg) + "\n", "    ", NIC_OPEN);
  }

  // ------------------------------------------------- the interface itself

  lemma ReadQuotedIs(pre: string, marker: string, value: string, rest: string)
    requires |marker| >= 2 && Skips(pre, marker) && NoChar(value, '"')
    ensures ReadQuoted(pre + marker + (value + "\"" + rest), marker) == (value, rest)
  {
    hide Index, Skips;
    var text := pre + marker + (value + "\"" + rest);
    FindAfter(pre, marker, value + "\"" + rest);
    assert text[|pre| + |marker|..] == value + "\"" + rest;
    FindChar(value, '"', rest);
    assert (value + "\"" + rest)[..|value|] == value;
    assert (value + "\"" + rest)[|value| + 1..] == rest;
  }

  /** What is configured, with the defaults that networkXML fills in. */
  function KindText(n: NetworkConfig): string {
    match n.kind
    case Bridge => "bridge"
    case Direct => "direct"
    case Nat => "network"
  }

  function SourceName(n: NetworkConfig): string {
    if n.kind == Nat && n.source == "" then "default" else n.source
  }

  function ModeName(n: NetworkConfig): string {
    if n.kind != Direct then "" else if n.macvtapMode == "" then "bridge" else n.macvtapMode
  }

  /** The text behind the source's value. */
  function AfterSource(n: NetworkConfig): string {
    (if n.kind == Direct then " mode=\"" + (ModeName(n) + "\"" + "/>\n      ") else "/>\n      ") + Render(NIC_MODEL)
  }

  function SourceOpen(n: NetworkConfig): string {
    "<source " + SourceAttr(KindText(n)) + "=\""
  }

  lemma NicTwo(n: NetworkConfig)
    ensures Render(NetworkTags(n)) == TagText(NetworkTags(n)[0]) + (TagText(NetworkTags(n)[1]) + Render(NIC_MODEL))
  {
    var t0, t1 := NetworkTags(n)[0], NetworkTags(n)[1];
    assert NetworkTags(n) == [t0] + ([t1] + NIC_MODEL);
    hide NetworkTags, Render, TagText;
    RenderStep(t0, [t1] + NIC_MODEL);
    RenderStep(t1, NIC_MODEL);
  }

  lemma NicFirst(n: NetworkConfig)
    ensures TagText(NetworkTags(n)[0]) == NIC_OPEN + (KindText(n) + "\"" + ">\n      ")
  {
    NicOpenText("bridge");
    NicOpenText("direct");
    NicOpenText("network");
    hide TagText;
    assert "interface type=\"" + "bridge" + "\"" == "interface type=\"bridge\"";
    assert "interface type=\"" + "direct" + "\"" == "interface type=\"direct\"";
    assert "interface type=\"" + "network" + "\"" == "interface type=\"network\"";
  }

  lemma NicOpenText(kind: string)
    ensures TagText(Open("interface type=\"" + kind + "\"", "\n      ")) == NIC_OPEN + (kind + "\"" + ">\n      ")
  {
    assert "<" + "interface type=\"" == NIC_OPEN;
    assert ">" + "\n      " == ">\n      ";
  }

  lemma NicSecond(n: NetworkConfig)
    ensures TagText(NetworkTags(n)[1]) + Render(NIC_MODEL) == SourceOpen(n) + (SourceName(n) + "\"" + AfterSource(n))
  {
    hide Render;
    var end := Render(NIC_MODEL);
    assert "/>" + "\n      " == "/>\n      ";
    match n.kind {
      case Bridge => OneSource("bridge", n.source, end);
      case Direct => TwoSource(n.source, ModeName(n), end);
      case Nat => OneSource("network", SourceName(n), end);
    }
    hide TagText;
  }

  lemma Glue(lt: string, src: string, attr: string, eq: string, value: string, q: string,
             close: string, nl: string, end: string)
    ensures lt + (src + (attr + eq + value + q) + (close + nl)) + end
         == lt + src + attr + eq + (value + q + (close + nl + end))
  {
  }

  lemma OneSource(attr: string, source: string, end: string)
    ensures TagText(Empty("source " + Quoted(attr, source), "\n      ")) + end
         == "<source " + attr + "=\"" + (source + "\"" + ("/>\n      " + end))
  {
    Glue("<", "source ", attr, "=\"", source, "\"", "/>", "\n      ", end);
    SourceLiterals();
    hide *;
    EmptyText("source " + Quoted(attr, source), "\n      ");
    QuotedIs(attr, source);
  }

  lemma SourceLiterals()
    ensures "<" + "source " == "<source " && "/>" + "\n      " == "/>\n      " && " " + "mode" + "=\"" == " mode=\""
  {
  }

  lemma EmptyText(body: string, after: string)
    ensures TagText(Empty(body, after)) == "<" + (body + ("/>" + after))
  {
  }

  lemma QuotedIs(attr: string, value: string)
    ensures Quoted(attr, value) == attr + "=\"" + value + "\""
  {
  }

  lemma GlueTwo(lt: string, src: string, a: string, eq: string, value: string, q: string,
                sp: string, m: string, mode: string, close: string, nl: string, end: string)
    ensures lt + (src + (a + eq + value + q) + sp + (m + eq + mode + q) + (close + nl)) + end
         == lt + src + a + eq + (value + q + (sp + m + eq + (mode + q + (close + nl)) + end))
  {
  }

  lemma TwoSource(source: string, mode: string, end: string)
    ensures TagText(Empty("source " + Quoted("dev", source) + " " + Quoted("mode", mode), "\n      ")) + end
         == "<source " + "dev" + "=\"" + (source + "\"" + (" mode=\"" + (mode + "\"" + "/>\n      ") + end))
  {
    GlueTwo("<", "source ", "dev", "=\"", source, "\"", " ", "mode", mode, "/>", "\n      ", end);
    SourceLiterals();
    hide *;
    EmptyText("source " + Quoted("dev", source) + " " + Quoted("mode", mode), "\n      ");
    QuotedIs("dev", source);
    QuotedIs("mode", mode);
  }

  lemma AroundNic(cfg: VMConfig)
    ensures DomainXml(cfg) == BeforeNic(cfg) + Render(NetworkTags(cfg.network)) + ("\n    " + Render(DEVICE_TAGS))
  {
    hide Header, DisksXml, Render, NetworkTags;
  }

  lemma NicParts(pre: string, open: string, kind: string, quote: string, gap: string, source: string,
                 name: string, last: string, post: string)
    ensures pre + (open + (kind + quote + gap) + (source + (name + quote + last))) + post
         == pre + open + (kind + quote + (gap + source + (name + quote + (last + post))))
  {
  }

  function BehindSource(cfg: VMConfig): string {
    AfterSource(cfg.network) + ("\n    " + Render(DEVICE_TAGS))
  }

  /** The text behind the interface's type. */
  function BehindKind(cfg: VMConfig): string {
    ">\n      " + SourceOpen(cfg.network) + (SourceName(cfg.network) + "\"" + BehindSource(cfg))
  }

  lemma NicText(cfg: VMConfig)
    ensures DomainXml(cfg) == BeforeNic(cfg) + NIC_OPEN + (KindText(cfg.network) + "\"" + BehindKind(cfg))
  {
    var n, post := cfg.network, "\n    " + Render(DEVICE_TAGS);
    hide Render, TagText, NetworkTags, DomainXml, BeforeNic, AfterSource, SourceOpen, SourceName, KindText;
    AroundNic(cfg);
    NicTwo(n);
    NicFirst(n);
    NicSecond(n);
    NicParts(BeforeNic(cfg), NIC_OPEN, KindText(n), "\"", ">\n      ", SourceOpen(n), SourceName(n), AfterSource(n),
             post);
  }

  lemma NicValues(n: NetworkConfig)
    requires NoChar(n.source, '"') && NoChar(n.macvtapMode, '"')
    ensures NoChar(KindText(n), '"') && NoChar(SourceName(n), '"') && NoChar(ModeName(n), '"')
    ensures |SourceOpen(n)| >= 2 && Skips(">\n      ", SourceOpen(n)) && |NIC_OPEN| >= 2
    ensures KindText(n) == "direct" <==> n.kind == Direct
  {
  }

  /**
    The printed interface has the configured type, and under the attribute that goes with the
    type the configured source; for macvtap the configured mode; the defaults where a source
    or mode is not given.
   */
  lemma NetworkReadBack(cfg: VMConfig)
    requires TaglessConfig(cfg) && NoChar(cfg.network.source, '"') && NoChar(cfg.network.macvtapMode, '"')
    ensures NetworkOf(DomainXml(cfg)) == (KindText(cfg.network), SourceName(cfg.network), ModeName(cfg.network))
  {
    var n := cfg.network;
    NicValues(n);
    ModeRead(n, "\n    " + Render(DEVICE_TAGS));
    hide Render, Skips, NoChar, DomainXml, BeforeNic, AfterSource, ReadQuoted, TaglessConfig;
    hide KindText, SourceName, ModeName;
    BeforeNicSkips(cfg);
    NicText(cfg);
    ReadQuotedIs(BeforeNic(cfg), NIC_OPEN, KindText(n), BehindKind(cfg));
    ReadQuotedIs(">\n      ", SourceOpen(n), SourceName(n), BehindSource(cfg));
    hide BehindKind, SourceAttr;
  }

  lemma ModeText(n: NetworkConfig, post: string)
    requires n.kind == Direct
    ensures AfterSource(n) + post == "" + " mode=\"" + (ModeName(n) + "\"" + ("/>\n      " + Render(NIC_MODEL) + post))
  {
    hide Render, ModeName;
    GlueMode(" mode=\"", ModeName(n), "\"", "/>\n      ", Render(NIC_MODEL), post);
  }

  lemma GlueMode(marker: string, mode: string, q: string, close: string, end: string, post: string)
    ensures marker + (mode + q + close) + end + post == "" + marker + (mode + q + (close + end + post))
  {
  }

  lemma ModeRead(n: NetworkConfig, post: string)
    requires NoChar(ModeName(n), '"')
    ensures n.kind == Direct ==> ReadQuoted(AfterSource(n) + post, " mode=\"").0 == ModeName(n)
  {
    if n.kind == Direct {
      assert |" mode=\""| >= 2 && Skips("", " mode=\"");
      hide *;
      ModeText(n, post);
      ReadQuotedIs("", " mode=\"", ModeName(n), "/>\n      " + Render(NIC_MODEL) + post);
    }
  }
}
