/**
  The theorems about whole domain descriptions: reading one back, attaching a disk to one,
  and moving its first disk by a single text replacement.
 */
module DomainRoundTrip {
  import opened Text
  import opened DomainDescription
  import opened DomainText

  // ------------------------------------------------- the text around the disks

  lemma SettingsText(cfg: VMConfig)
    ensures Quiet(Render(SettingTags(cfg))) && Fenced(Render(SettingTags(cfg)))
  {
    SizingPlain(cfg);
    OsPlain();
    FeaturePlain();
    hide SizingTags, PlainTag;
    PlainRender(SettingTags(cfg));
  }

  lemma HeaderText(cfg: VMConfig)
    requires NoChar(cfg.name, '<')
    ensures Quiet(Header(cfg))
    ensures Plain(cfg.name) ==> Fenced(Header(cfg))
  {
    var open, name := TagText(DOMAIN_TAG), TagText(Open("name", cfg.name));
    var close, settings := TagText(NAME_CLOSE), Render(SettingTags(cfg));
    NameTags(cfg);
    PlainIsQuiet(DOMAIN_TAG);
    PlainIsQuiet(NAME_CLOSE);
    SettingsText(cfg);
    hide Quiet, Fenced, QuietTag, TagText, SettingTags;
    TagIsQuiet(DOMAIN_TAG);
    TagIsQuiet(Open("name", cfg.name));
    TagIsQuiet(NAME_CLOSE);
    QuietConcat(open, name);
    QuietConcat(close, settings);
    QuietConcat(open + name, close + settings);
    if Plain(cfg.name) {
      TagIsFenced(DOMAIN_TAG);
      TagIsFenced(Open("name", cfg.name));
      TagIsFenced(NAME_CLOSE);
      FencedConcat(open, name);
      FencedConcat(close, settings);
      FencedConcat(open + name, close + settings);
    }
  }

  lemma QuotedText(attr: string, value: string)
    requires NoChar(attr, '<') && NoChar(value, '<')
    ensures NoChar(Quoted(attr, value), '<')
  {
  }

  lemma SourceTagQuiet(attrs: string)
    requires NoChar(attrs, '<')
    ensures QuietTag(Empty("source " + attrs, "\n      "))
  {
    assert ("source " + attrs)[0] == 's';
  }

  lemma NicModelQuiet()
    ensures QuietTag(NIC_MODEL[0]) && QuietTag(NIC_MODEL[1])
  {
  }

  lemma InterfaceQuiet(kind: string)
    requires kind == "bridge" || kind == "direct" || kind == "network"
    ensures QuietTag(Open("interface type=\"" + kind + "\"", "\n      "))
  {
    var body := "interface type=\"" + kind + "\"";
    assert body[0] == 'i' && NoChar("interface type=\"", '<') && NoChar(kind, '<');
  }

  lemma FixedNicTags(n: NetworkConfig)
    ensures QuietTag(NetworkTags(n)[0]) && QuietTag(NIC_MODEL[0]) && QuietTag(NIC_MODEL[1])
  {
    NicModelQuiet();
    InterfaceQuiet("bridge");
    InterfaceQuiet("direct");
    InterfaceQuiet("network");
    hide QuietTag;
    assert "interface type=\"" + "bridge" + "\"" == "interface type=\"bridge\"";
    assert "interface type=\"" + "direct" + "\"" == "interface type=\"direct\"";
    assert "interface type=\"" + "network" + "\"" == "interface type=\"network\"";
  }

  lemma NicTags(n: NetworkConfig)
    requires NoChar(n.source, '<') && NoChar(n.macvtapMode, '<')
    ensures AllQuiet(NetworkTags(n))
  {
    FixedNicTags(n);
    assert NoChar(" ", '<') && NoChar("bridge", '<') && NoChar("dev", '<') && NoChar("mode", '<');
    assert NoChar("network", '<') && NoChar("default", '<');
    hide QuietTag, NoChar, Quoted;
    var mode := if n.macvtapMode == "" then "bridge" else n.macvtapMode;
    var source := if n.source == "" then "default" else n.source;
    QuotedText("bridge", n.source);
    QuotedText("dev", n.source);
    QuotedText("mode", mode);
    QuotedText("network", source);
    TwoAttrs(Quoted("dev", n.source), Quoted("mode", mode));
    SourceTagQuiet(Quoted("bridge", n.source));
    SourceTagQuiet(Quoted("dev", n.source) + " " + Quoted("mode", mode));
    SourceTagQuiet(Quoted("network", source));
  }

  lemma TwoAttrs(a: string, b: string)
    requires NoChar(a, '<') && NoChar(b, '<')
    ensures NoChar(a + " " + b, '<')
  {
  }

  lemma DevicesQuiet()
    ensures Quiet(Render(DEVICE_TAGS))
  {
    SerialPlain();
    ConsolePlain();
    GraphicsPlain();
    VideoPlain();
    ChannelPlain();
    ClosingQuiet();
    hide QuietTag, PlainTag;
    AllPlainQuiet(SERIAL_TAGS);
    AllPlainQuiet(CONSOLE_TAGS);
    AllPlainQuiet(GRAPHICS_TAGS);
    AllPlainQuiet(VIDEO_TAGS);
    AllPlainQuiet(CHANNEL_TAGS);
    QuietRender(DEVICE_TAGS);
  }

  lemma TrailerText(cfg: VMConfig)
    requires NoChar(cfg.network.source, '<') && NoChar(cfg.network.macvtapMode, '<')
    ensures Quiet(Trailer(cfg))
  {
    var nic, devices := Render(NetworkTags(cfg.network)), Render(DEVICE_TAGS);
    NicTags(cfg.network);
    DevicesQuiet();
    QuietRender(NetworkTags(cfg.network));
    hide Render, NetworkTags, Quiet;
    BlanksQuiet();
    QuietConcat("    ", nic);
    QuietConcat("\n", "    " + nic);
    QuietConcat("\n" + ("    " + nic), "\n    ");
    QuietConcat("\n" + ("    " + nic) + "\n    ", devices);
  }

  lemma BlanksQuiet()
    ensures Quiet("\n") && Quiet("    ") && Quiet("\n    ")
  {
  }

  // ------------------------------------------------- parser after printer

  lemma TargetTagless(d: DiskDevice, i: nat)
    requires TaglessDisk(d)
    ensures TargetOf(d, i) != "" && NoChar(TargetOf(d, i), '<')
  {
  }

  /** One extra disk and the rest, printed and read back. */
  lemma ExtrasStep(ds: seq<DiskDevice>, i: nat, tail: string)
    requires i < |ds|
    ensures ds[i].path == "" ==> ExtrasXml(ds, i) == ExtrasXml(ds, i + 1) && ReadListed(ds, i) == ReadListed(ds, i + 1)
    ensures ds[i].path != "" ==>
      && ExtrasXml(ds, i) + tail == "\n    " + DiskXml(ds[i].path, TargetOf(ds[i], i)) + (ExtrasXml(ds, i + 1) + tail)
      && ReadListed(ds, i) == ReadDisk(ds[i].path, TargetOf(ds[i], i)) + ReadListed(ds, i + 1)
  {
    hide DiskXml, TargetOf, ReadDisk;
  }

  lemma {:induction false} ExtrasRead(ds: seq<DiskDevice>, i: nat, tail: string)
    requires i <= |ds| && forall k :: 0 <= k < |ds| ==> TaglessDisk(ds[k])
    requires Quiet(tail)
    ensures FileDisks(ExtrasXml(ds, i) + tail) == ReadListed(ds, i)
    decreases |ds| - i
  {
    hide FileDisks, DiskXml, Quiet, TargetOf, ReadDisk, NoChar;
    if i == |ds| {
      assert "" + tail == tail;
      QuietLists(tail);
    } else {
      ExtrasRead(ds, i + 1, tail);
      ExtrasStep(ds, i, tail);
      if ds[i].path != "" {
        hide ExtrasXml, ReadListed;
        assert TaglessDisk(ds[i]);
        TargetTagless(ds[i], i);
        BlanksQuiet();
        NextDisk("\n    ", ds[i].path, TargetOf(ds[i], i), ExtrasXml(ds, i + 1) + tail);
      }
    }
  }

  /** Between quiet texts, the disks of a configuration are read back in order. */
  lemma DisksRead(head: string, cfg: VMConfig, tail: string)
    requires TaglessConfig(cfg) && Quiet(head) && Quiet(tail)
    ensures FileDisks(head + DisksXml(cfg) + tail) == ReadBack(cfg)
  {
    var extras, first := ExtrasXml(cfg.extraDisks, 0), DiskXml(cfg.diskPath, "vda");
    BlanksQuiet();
    assert NoChar("vda", '<');
    hide FileDisks, DiskXml, ExtrasXml, ReadListed, ReadDisk, Quiet, NoChar;
    QuietConcat(head, "    ");
    RegroupDisks(head, "    ", first, extras, tail);
    NextDisk(head + "    ", cfg.diskPath, "vda", extras + tail);
    ExtrasRead(cfg.extraDisks, 0, tail);
  }

  /** The parser after the printer, for every configuration none of whose fields can open a tag. */
  lemma ParserReadsPrinter(cfg: VMConfig)
    requires TaglessConfig(cfg)
    ensures FileDisks(DomainXml(cfg)) == ReadBack(cfg)
  {
    hide FileDisks, Header, DisksXml, Trailer, Quiet, ReadBack;
    HeaderText(cfg);
    TrailerText(cfg);
    DisksRead(Header(cfg), cfg, Trailer(cfg));
  }

  /** A disk that can be printed and read back: non-empty, without quote and closing bracket. */
  predicate Printable(d: DiskDevice) {
    && d.path != "" && NoChar(d.path, '\'') && NoChar(d.path, '>')
    && d.target != "" && NoChar(d.target, '\'') && NoChar(d.target, '>')
  }

  lemma PrintableReadBack(d: DiskDevice)
    requires Printable(d)
    ensures ReadDisk(d.path, d.target) == [d]
  {
    AsReadExactly(d.path);
    AsReadExactly(d.target);
    hide AsRead;
  }

  lemma {:induction false} ListedReadBack(ds: seq<DiskDevice>, i: nat)
    requires i <= |ds| && forall d :: d in Listed(ds, i) ==> Printable(d)
    ensures ReadListed(ds, i) == Listed(ds, i)
    decreases |ds| - i
  {
    hide Printable, ReadDisk, TargetOf;
    if i < |ds| {
      assert forall d :: d in Listed(ds, i + 1) ==> d in Listed(ds, i);
      ListedReadBack(ds, i + 1);
      if ds[i].path != "" {
        var d := DiskDevice(ds[i].path, TargetOf(ds[i], i));
        assert Listed(ds, i)[0] == d;
        PrintableReadBack(d);
      }
    }
  }

  /**
    Reading back what was printed gives the configured disks (the boot disk as vda, then every
    extra disk that has a path, in order, unnamed targets filled in from their position) if and
    only if each of them is non-empty, without quote and closing bracket.  In general a field
    loses what stands behind its first quote, and a disk is lost altogether when a field begins
    with one or has a closing bracket before it.
   */
  lemma ParserUndoesPrinterExactly(cfg: VMConfig)
    requires TaglessConfig(cfg)
    ensures FileDisks(DomainXml(cfg)) == ReadBack(cfg)
    ensures FileDisks(DomainXml(cfg)) == ConfigDisks(cfg) <==> forall d :: d in ConfigDisks(cfg) ==> Printable(d)
  {
    hide FileDisks, DomainXml;
    ParserReadsPrinter(cfg);
    hide TaglessConfig, Listed, ReadListed, ReadDisk;
    if forall d :: d in ConfigDisks(cfg) ==> Printable(d) {
      var boot := DiskDevice(cfg.diskPath, "vda");
      assert ConfigDisks(cfg)[0] == boot;
      PrintableReadBack(boot);
      forall d | d in Listed(cfg.extraDisks, 0)
        ensures Printable(d)
      {
        assert d in ConfigDisks(cfg);
      }
      ListedReadBack(cfg.extraDisks, 0);
    } else if FileDisks(DomainXml(cfg)) == ConfigDisks(cfg) {
      ParsedDisksAreClean(DomainXml(cfg));
    }
  }

  lemma {:induction false} ListedPrintable(ds: seq<DiskDevice>, i: nat)
    requires i <= |ds| && forall k :: 0 <= k < |ds| ==> CleanDisk(ds[k])
    ensures forall d :: d in Listed(ds, i) ==> Printable(d)
    decreases |ds| - i
  {
    if i < |ds| {
      assert CleanDisk(ds[i]);
      hide CleanDisk;
      ListedPrintable(ds, i + 1);
    }
  }

  lemma CleanIsTagless(cfg: VMConfig)
    requires CleanConfig(cfg)
    ensures TaglessConfig(cfg)
  {
    forall i | 0 <= i < |cfg.extraDisks|
      ensures TaglessDisk(cfg.extraDisks[i])
    {
      assert CleanDisk(cfg.extraDisks[i]);
    }
  }

  /** For clean configurations. */
  lemma ParserUndoesPrinter(cfg: VMConfig)
    requires CleanConfig(cfg)
    ensures FileDisks(DomainXml(cfg)) == ConfigDisks(cfg)
  {
    CleanIsTagless(cfg);
    ListedPrintable(cfg.extraDisks, 0);
    assert Printable(DiskDevice(cfg.diskPath, "vda"));
    hide FileDisks, DomainXml, Listed, Printable, ReadBack, TaglessConfig;
    ParserUndoesPrinterExactly(cfg);
  }

  lemma RegroupDisks(a: string, b: string, c: string, d: string, e: string)
    ensures a + (b + c + d) + e == (a + b) + c + (d + e)
  {
  }

  // ------------------------------------------------- the name

  lemma NameElement(name: string)
    ensures TagText(Open("name", name)) == "<name>" + name
    ensures TagText(NAME_CLOSE) == "</name>" + "\n  "
  {
  }

  /** A printed domain is the opening tag, the name element, and the rest. */
  lemma NameFirst(cfg: VMConfig)
    ensures exists rest :: DomainXml(cfg) == TagText(DOMAIN_TAG) + "<name>" + (cfg.name + "</name>" + rest)
  {
    NameElement(cfg.name);
    hide TagText, DisksXml, Trailer, SettingTags;
    var open := TagText(DOMAIN_TAG);
    var settings, disks, tail := Render(SettingTags(cfg)), DisksXml(cfg), Trailer(cfg);
    var rest := "\n  " + settings + disks + tail;
    NameSplit(open, "<name>", cfg.name, "</name>", "\n  ", settings, disks, tail);
    assert DomainXml(cfg) == open + "<name>" + (cfg.name + "</name>" + rest);
  }

  lemma NameSplit(a: string, b: string, c: string, d: string, e: string, f: string, g: string, h: string)
    ensures a + (b + c) + ((d + e) + f) + g + h == a + b + (c + d + (e + f + g + h))
  {
  }

  lemma ElementBetween(pre: string, open: string, value: string, close: string, rest: string)
    requires |open| >= 2 && |close| >= 2 && close[0] == '<' && Skips(pre, open) && NoChar(value, '<')
    ensures Element(pre + open + (value + close + rest), open, close) == value
  {
    hide Index;
    NoLtSkips(value, close);
    hide Skips, NoChar;
    var xml := pre + open + (value + close + rest);
    FindAfter(pre, open, value + close + rest);
    assert xml[|pre| + |open|..] == value + close + rest;
    FindAfter(value, close, rest);
  }

  lemma DomainTagSkips(sub: string)
    requires |sub| >= 2 && sub[0] == '<' && sub[1] != 'd'
    ensures Skips(TagText(DOMAIN_TAG), sub)
  {
    assert PlainTag(DOMAIN_TAG) && DOMAIN_TAG.body[0] == 'd';
    PlainIsQuiet(DOMAIN_TAG);
    hide TagText, PlainTag;
    TagSkips(DOMAIN_TAG, sub);
  }

  /** The name libvirt files a printed domain under is the configured one. */
  lemma NameReadBack(cfg: VMConfig)
    requires NoChar(cfg.name, '<')
    ensures NameOf(DomainXml(cfg)) == cfg.name
  {
    DomainTagSkips("<name>");
    NameFirst(cfg);
    hide DomainXml, TagText, Element, Skips;
    var rest :| DomainXml(cfg) == TagText(DOMAIN_TAG) + "<name>" + (cfg.name + "</name>" + rest);
    ElementBetween(TagText(DOMAIN_TAG), "<name>", cfg.name, "</name>", rest);
  }

  // ------------------------------------------------- memory and processors

  lemma RenderStep(t: Tag, rest: seq<Tag>)
    ensures Render([t] + rest) == TagText(t) + Render(rest)
  {
    assert ([t] + rest)[1..] == rest;
  }

  lemma MemoryText(memory: string)
    ensures TagText(Open("memory unit='GiB'", memory)) == MEMORY_OPEN + memory
    ensures TagText(Close("memory", "\n  ")) == "</memory>" + "\n  "
  {
    assert "<" + "memory unit='GiB'" + ">" == MEMORY_OPEN;
  }

  lemma VcpuText(vcpus: string)
    ensures TagText(Open("vcpu", vcpus)) == VCPU_OPEN + vcpus
    ensures TagText(Close("vcpu", "\n  ")) == "</vcpu>" + "\n  "
  {
  }

  lemma SettingsSplit(cfg: VMConfig)
    ensures Render(SettingTags(cfg)) ==
      MEMORY_OPEN + Dec(cfg.memory) + ("</memory>" + "\n  ")
      + (VCPU_OPEN + Dec(cfg.vcpus) + ("</vcpu>" + "\n  " + Render(OS_TAGS + FEATURE_TAGS)))
  {
    var t0, t1 := Open("memory unit='GiB'", Dec(cfg.memory)), Close("memory", "\n  ");
    var t2, t3 := Open("vcpu", Dec(cfg.vcpus)), Close("vcpu", "\n  ");
    var rest := OS_TAGS + FEATURE_TAGS;
    assert SettingTags(cfg) == [t0] + ([t1] + ([t2] + ([t3] + rest)));
    hide SettingTags, Render, TagText, Dec;
    RenderStep(t0, [t1] + ([t2] + ([t3] + rest)));
    RenderStep(t1, [t2] + ([t3] + rest));
    RenderStep(t2, [t3] + rest);
    RenderStep(t3, rest);
    MemoryText(Dec(cfg.memory));
    VcpuText(Dec(cfg.vcpus));
  }

  /** The text before the memory element. */
  function BeforeMemory(cfg: VMConfig): string {
    TagText(DOMAIN_TAG) + TagText(Open("name", cfg.name)) + TagText(NAME_CLOSE)
  }

  lemma BeforeMemorySkips(cfg: VMConfig, sub: string)
    requires NoChar(cfg.name, '<') && |sub| >= 2 && sub[0] == '<' && sub[1] !in ['d', 'n', '/']
    ensures Skips(BeforeMemory(cfg), sub)
  {
    NameElement(cfg.name);
    assert Skips("</name>" + "\n  ", sub) && Skips("<name>", sub);
    DomainTagSkips(sub);
    NoLtSkips(cfg.name, sub);
    hide TagText, Skips;
    SkipsConcat("<name>", cfg.name, sub);
    SkipsConcat(TagText(DOMAIN_TAG), TagText(Open("name", cfg.name)), sub);
    SkipsConcat(TagText(DOMAIN_TAG) + TagText(Open("name", cfg.name)), TagText(NAME_CLOSE), sub);
  }

  /** The text behind the processor count. */
  function AfterVcpus(cfg: VMConfig): string {
    "\n  " + Render(OS_TAGS + FEATURE_TAGS) + DisksXml(cfg) + Trailer(cfg)
  }

  lemma SizesSplit(a: string, b: string, c: string, m: string, mem: string, cm: string, nl: string,
                   v: string, cpus: string, cv: string, os: string, disks: string, tail: string)
    ensures a + b + (c + (m + mem + (cm + nl) + (v + cpus + (cv + nl + os)))) + disks + tail
         == (a + b + c) + m + (mem + cm + (nl + (v + (cpus + cv + (nl + os + disks + tail)))))
    ensures a + b + (c + (m + mem + (cm + nl) + (v + cpus + (cv + nl + os)))) + disks + tail
         == ((a + b + c) + m + mem + (cm + nl)) + v + (cpus + cv + (nl + os + disks + tail))
  {
  }

  lemma SizesAround(cfg: VMConfig)
    ensures DomainXml(cfg) == BeforeMemory(cfg) + MEMORY_OPEN + (Dec(cfg.memory) + "</memory>"
      + ("\n  " + (VCPU_OPEN + (Dec(cfg.vcpus) + "</vcpu>" + AfterVcpus(cfg)))))
    ensures DomainXml(cfg) == (BeforeMemory(cfg) + MEMORY_OPEN + Dec(cfg.memory) + ("</memory>" + "\n  "))
      + VCPU_OPEN + (Dec(cfg.vcpus) + "</vcpu>" + AfterVcpus(cfg))
  {
    hide TagText, Render, Dec, DisksXml, Trailer, SettingTags;
    SettingsSplit(cfg);
    SizesSplit(TagText(DOMAIN_TAG), TagText(Open("name", cfg.name)), TagText(NAME_CLOSE),
               MEMORY_OPEN, Dec(cfg.memory), "</memory>", "\n  ", VCPU_OPEN, Dec(cfg.vcpus), "</vcpu>",
               Render(OS_TAGS + FEATURE_TAGS), DisksXml(cfg), Trailer(cfg));
  }

  lemma BeforeVcpusSkips(pre: string, memory: string)
    requires Skips(pre, VCPU_OPEN) && NoChar(memory, '<')
    ensures Skips(pre + MEMORY_OPEN + memory + ("</memory>" + "\n  "), VCPU_OPEN)
  {
    MemorySkips(memory);
    hide *;
    SkipsConcat(pre, MEMORY_OPEN, VCPU_OPEN);
    SkipsConcat(pre + MEMORY_OPEN, memory, VCPU_OPEN);
    SkipsConcat(pre + MEMORY_OPEN + memory, "</memory>" + "\n  ", VCPU_OPEN);
  }

  lemma MemoryReadBack(cfg: VMConfig)
    requires NoChar(cfg.name, '<')
    ensures MemoryOf(DomainXml(cfg)) == Dec(cfg.memory)
  {
    NumberText(cfg.memory);
    assert "</memory>"[0] == '<';
    BeforeMemorySkips(cfg, MEMORY_OPEN);
    hide DomainXml, Element, Skips, NoChar, Dec, BeforeMemory, AfterVcpus;
    SizesAround(cfg);
    ElementBetween(BeforeMemory(cfg), MEMORY_OPEN, Dec(cfg.memory), "</memory>",
                   "\n  " + (VCPU_OPEN + (Dec(cfg.vcpus) + "</vcpu>" + AfterVcpus(cfg))));
  }

  lemma VcpusReadBack(cfg: VMConfig)
    requires NoChar(cfg.name, '<')
    ensures VcpusOf(DomainXml(cfg)) == Dec(cfg.vcpus)
  {
    NumberText(cfg.memory);
    NumberText(cfg.vcpus);
    assert "</vcpu>"[0] == '<';
    BeforeMemorySkips(cfg, VCPU_OPEN);
    hide DomainXml, Element, Skips, NoChar, Dec, BeforeMemory, AfterVcpus;
    SizesAround(cfg);
    BeforeVcpusSkips(BeforeMemory(cfg), Dec(cfg.memory));
    ElementBetween(BeforeMemory(cfg) + MEMORY_OPEN + Dec(cfg.memory) + ("</memory>" + "\n  "), VCPU_OPEN,
                   Dec(cfg.vcpus), "</vcpu>", AfterVcpus(cfg));
  }

  lemma NumberText(n: nat)
    ensures NoChar(Dec(n), '<')
  {
  }

  /**
    A printed domain asks libvirt for exactly the memory and the processors that were
    configured: the two numbers, read back as decimals, in the elements where libvirt looks.
   */
  lemma SizesReadBack(cfg: VMConfig)
    requires NoChar(cfg.name, '<')
    ensures Val(Dec(cfg.memory)) == cfg.memory && MemoryOf(DomainXml(cfg)) == Dec(cfg.memory)
    ensures Val(Dec(cfg.vcpus)) == cfg.vcpus && VcpusOf(DomainXml(cfg)) == Dec(cfg.vcpus)
  {
    hide DomainXml, Element, NoChar, Dec, Val;
    ValDec(cfg.memory);
    ValDec(cfg.vcpus);
    MemoryReadBack(cfg);
    VcpusReadBack(cfg);
  }

  lemma MemorySkips(memory: string)
    requires NoChar(memory, '<')
    ensures Skips(MEMORY_OPEN, VCPU_OPEN) && Skips(memory, VCPU_OPEN) && Skips("</memory>" + "\n  ", VCPU_OPEN)
  {
  }

  // ------------------------------------------------- attaching a disk

  lemma {:induction false} ExtrasAppend(ds: seq<DiskDevice>, d: DiskDevice, i: nat)
    requires i <= |ds| && d.path != "" && d.target != ""
    ensures ExtrasXml(ds + [d], i) == ExtrasXml(ds, i) + ("\n    " + DiskXml(d.path, d.target))
    ensures Listed(ds + [d], i) == Listed(ds, i) + [d]
    decreases |ds| - i
  {
    hide DiskXml;
    var all := ds + [d];
    if i == |ds| {
      assert all[i] == d;
      assert ExtrasXml(all, i + 1) == "";
      assert "\n    " + DiskXml(d.path, d.target) + "" == "" + ("\n    " + DiskXml(d.path, d.target));
    } else {
      ExtrasAppend(ds, d, i + 1);
      assert all[i] == ds[i];
      if ds[i].path != "" {
        Reassoc("\n    " + DiskXml(ds[i].path, TargetOf(ds[i], i)), ExtrasXml(ds, i + 1),
                "\n    " + DiskXml(d.path, d.target));
      }
    }
  }

  lemma Reassoc(a: string, b: string, c: string)
    ensures a + (b + c) == a + b + c
  {
  }

  lemma FragmentCloses(path: string, target: string)
    ensures HasSuffix(DiskXml(path, target), DISK_CLOSE)
  {
    FragmentParts(path, target);
    hide DiskXml, FragmentBody;
  }

  lemma SuffixConcat(a: string, b: string, suffix: string)
    requires HasSuffix(b, suffix)
    ensures HasSuffix(a + b, suffix)
  {
    assert (a + b)[|a + b| - |suffix|..] == b[|b| - |suffix|..];
  }

  lemma {:induction false} ExtrasClose(ds: seq<DiskDevice>, i: nat)
    requires i <= |ds|
    ensures ExtrasXml(ds, i) == "" || HasSuffix(ExtrasXml(ds, i), DISK_CLOSE)
    decreases |ds| - i
  {
    hide DiskXml;
    if i < |ds| {
      ExtrasClose(ds, i + 1);
      if ds[i].path != "" {
        var d := DiskXml(ds[i].path, TargetOf(ds[i], i));
        FragmentCloses(ds[i].path, TargetOf(ds[i], i));
        SuffixConcat("\n    ", d, DISK_CLOSE);
        if ExtrasXml(ds, i + 1) == "" {
          assert "\n    " + d + "" == "\n    " + d;
        } else {
          SuffixConcat("\n    " + d, ExtrasXml(ds, i + 1), DISK_CLOSE);
        }
      }
    }
  }

  lemma DisksClose(cfg: VMConfig)
    ensures HasSuffix(DisksXml(cfg), DISK_CLOSE)
  {
    hide DiskXml;
    var d := DiskXml(cfg.diskPath, "vda");
    FragmentCloses(cfg.diskPath, "vda");
    SuffixConcat("    ", d, DISK_CLOSE);
    ExtrasClose(cfg.extraDisks, 0);
    if ExtrasXml(cfg.extraDisks, 0) == "" {
      assert "    " + d + "" == "    " + d;
    } else {
      SuffixConcat("    " + d, ExtrasXml(cfg.extraDisks, 0), DISK_CLOSE);
    }
  }

  lemma QuietNoClose(a: string, b: string, k: int)
    requires Quiet(b) && 0 <= k < |b|
    ensures !At(a + b, DISK_CLOSE, |a| + k)
  {
    NotAt(a + b, DISK_CLOSE, |a| + k,
          if b[k] != '<' then 0 else if b[k + 1] != '/' then 1 else if b[k + 2] != 'd' then 2 else 3);
  }

  lemma CloseNotInside(a: string, b: string, k: int)
    requires 0 < k < 7
    ensures !At(a + DISK_CLOSE + b, DISK_CLOSE, |a| + k)
  {
    NotAt(a + DISK_CLOSE + b, DISK_CLOSE, |a| + k, 0);
  }

  /** Quiet text behind a closing tag hides no later one. */
  lemma LastClose(a: string, b: string)
    requires Quiet(b)
    ensures LastIndex(a + DISK_CLOSE + b, DISK_CLOSE) == |a|
  {
    hide LastIndex, Quiet, At;
    var s := a + DISK_CLOSE + b;
    AtMiddle(a, DISK_CLOSE, b);
    forall j | |a| < j < |s|
      ensures !At(s, DISK_CLOSE, j)
    {
      if j < |a| + 7 {
        CloseNotInside(a, b, j - |a|);
      } else {
        QuietNoClose(a + DISK_CLOSE, b, j - |a| - 7);
      }
    }
    LastIndexIs(s, DISK_CLOSE, |a|);
  }

  lemma SpliceBehind(a: string, b: string, fragment: string)
    requires Quiet(b)
    ensures Splice(a + DISK_CLOSE + b, fragment) == a + DISK_CLOSE + ("\n    " + fragment) + b
  {
    LastClose(a, b);
    hide LastIndex, Quiet;
    var s := a + DISK_CLOSE + b;
    assert s[..|a| + 7] == a + DISK_CLOSE;
    assert s[|a| + 7..] == b;
    Reassoc(a + DISK_CLOSE, "\n    ", fragment);
  }

  lemma DisksAppend(cfg: VMConfig, d: DiskDevice)
    requires d.path != "" && d.target != ""
    ensures DisksXml(cfg.(extraDisks := cfg.extraDisks + [d])) == DisksXml(cfg) + ("\n    " + DiskXml(d.path, d.target))
    ensures ConfigDisks(cfg.(extraDisks := cfg.extraDisks + [d])) == ConfigDisks(cfg) + [d]
  {
    hide DiskXml, ExtrasXml, Listed;
    ExtrasAppend(cfg.extraDisks, d, 0);
    Reassoc("    " + DiskXml(cfg.diskPath, "vda"), ExtrasXml(cfg.extraDisks, 0), "\n    " + DiskXml(d.path, d.target));
  }

  lemma SpliceInto(head: string, disks: string, tail: string, fragment: string)
    requires HasSuffix(disks, DISK_CLOSE) && Quiet(tail)
    ensures Splice(head + disks + tail, fragment) == head + (disks + ("\n    " + fragment)) + tail
  {
    hide Splice, Quiet;
    var before := disks[..|disks| - 7];
    assert disks == before + DISK_CLOSE;
    Reassoc(head, before, DISK_CLOSE);
    SpliceBehind(head + before, tail, fragment);
    Reassoc(head, disks, "\n    " + fragment);
  }

  lemma SameHeader(cfg: VMConfig, d: DiskDevice)
    ensures Header(cfg.(extraDisks := cfg.extraDisks + [d])) == Header(cfg)
    ensures Trailer(cfg.(extraDisks := cfg.extraDisks + [d])) == Trailer(cfg)
  {
  }

  /** Attaching a disk to a printed domain prints as the configuration with that disk added. */
  lemma AttachAppends(cfg: VMConfig, d: DiskDevice)
    requires NoChar(cfg.network.source, '<') && NoChar(cfg.network.macvtapMode, '<') && d.path != "" && d.target != ""
    ensures Splice(DomainXml(cfg), DiskXml(d.path, d.target))
         == DomainXml(cfg.(extraDisks := cfg.extraDisks + [d]))
    ensures ConfigDisks(cfg.(extraDisks := cfg.extraDisks + [d])) == ConfigDisks(cfg) + [d]
  {
    hide Header, Trailer, DisksXml, DiskXml, Quiet, Splice, HasSuffix, ConfigDisks;
    SameHeader(cfg, d);
    TrailerText(cfg);
    DisksClose(cfg);
    DisksAppend(cfg, d);
    SpliceInto(Header(cfg), DisksXml(cfg), Trailer(cfg), DiskXml(d.path, d.target));
  }

  // ------------------------------------------------- moving the first disk

  /** A path as a storage pool hands it out: absolute, and below some directory. */
  predicate PoolPath(p: string) {
    CleanText(p) && |p| > 0 && p[0] == '/' && '/' in p[1..]
  }

  /** In fenced text no such path occurs, nor starts to occur. */
  lemma FencedHidesPath(pre: string, path: string, post: string, m: int)
    requires Fenced(pre) && PoolPath(path) && 0 <= m < |pre|
    ensures !At(pre + post, path, m)
  {
    if pre[m] != '/' {
      NotAt(pre + post, path, m, 0);
    } else {
      var j :| FencedAt(pre, m, j);
      var k :| 0 <= k < |path| - 1 && path[1..][k] == '/';
      if m + k + 1 < j {
        assert pre[m + 1..j][k] != '/';
        NotAt(pre + post, path, m, k + 1);
      } else {
        NotAt(pre + post, path, m, j - m);
      }
    }
  }

  lemma ReplaceBehindFence(pre: string, old_: string, new_: string, post: string)
    requires Fenced(pre) && PoolPath(old_)
    ensures ReplaceFirst(pre + old_ + post, old_, new_) == pre + new_ + post
  {
    hide Index, At;
    var s := pre + old_ + post;
    assert s == pre + (old_ + post);
    AtMiddle(pre, old_, post);
    forall m | 0 <= m < |pre|
      ensures !At(s, old_, m)
    {
      FencedHidesPath(pre, old_, old_ + post, m);
    }
    IndexIs(s, old_, |pre|);
  }

  /** Everything of a printed domain before the boot disk's path, and everything behind it. */
  function BeforePath(cfg: VMConfig): string {
    Header(cfg) + "    " + DISK_PREFIX
  }

  function AfterPath(cfg: VMConfig): string {
    SOURCE_CLOSE + TARGET_OPEN + "vda" + TARGET_CLOSE + DISK_CLOSE + ExtrasXml(cfg.extraDisks, 0) + Trailer(cfg)
  }

  lemma AroundPath(cfg: VMConfig)
    ensures DomainXml(cfg) == BeforePath(cfg) + cfg.diskPath + AfterPath(cfg)
  {
    hide Header, Trailer, ExtrasXml, TagText;
    var post := SOURCE_CLOSE + TARGET_OPEN + "vda" + TARGET_CLOSE + DISK_CLOSE;
    BootDiskAt(Header(cfg), "    ", DISK_PREFIX, cfg.diskPath, post, ExtrasXml(cfg.extraDisks, 0), Trailer(cfg));
  }

  lemma SameAround(cfg: VMConfig, newPath: string)
    ensures BeforePath(cfg.(diskPath := newPath)) == BeforePath(cfg)
    ensures AfterPath(cfg.(diskPath := newPath)) == AfterPath(cfg)
  {
  }

  lemma BootDiskAt(head: string, blank: string, prefix: string, path: string, post: string, extras: string,
                   tail: string)
    ensures head + (blank + (prefix + path + post) + extras) + tail
         == head + blank + prefix + path + (post + extras + tail)
  {
  }

  lemma BeforePathFenced(cfg: VMConfig)
    requires Plain(cfg.name)
    ensures Fenced(BeforePath(cfg))
  {
    PlainNoLt(cfg.name);
    HeaderText(cfg);
    PrefixFenced();
    assert Fenced("    ");
    hide Header, Fenced;
    FencedConcat(Header(cfg), "    ");
    FencedConcat(Header(cfg) + "    ", DISK_PREFIX);
  }

  /**
    MigrateDisk's textual edit: replacing the first occurrence of the boot disk's path in a
    printed domain gives the domain printed with the new path, and nothing else changes.
   */
  lemma ReplaceMovesBootDisk(cfg: VMConfig, newPath: string)
    requires Plain(cfg.name) && PoolPath(cfg.diskPath)
    ensures ReplaceFirst(DomainXml(cfg), cfg.diskPath, newPath) == DomainXml(cfg.(diskPath := newPath))
    ensures ConfigDisks(cfg.(diskPath := newPath)) == ConfigDisks(cfg)[0 := DiskDevice(newPath, "vda")]
  {
    var moved := cfg.(diskPath := newPath);
    assert ConfigDisks(moved) == ConfigDisks(cfg)[0 := DiskDevice(newPath, "vda")];
    hide *;
    AroundPath(cfg);
    AroundPath(moved);
    BeforePathFenced(cfg);
    SameAround(cfg, newPath);
    ReplaceBehindFence(BeforePath(cfg), cfg.diskPath, newPath, AfterPath(cfg));
  }

  lemma PrefixFenced()
    ensures Fenced(DISK_PREFIX)
  {
    FragmentTags();
    PrefixParts();
    assert Fenced(SOURCE_OPEN);
    hide TagText, Fenced;
    TagIsFenced(DISK_TAG);
    TagIsFenced(DRIVER_TAG);
    FencedConcat(TagText(DISK_TAG), TagText(DRIVER_TAG));
    FencedConcat(TagText(DISK_TAG) + TagText(DRIVER_TAG), SOURCE_OPEN);
  }

  // ------------------------------------------------- exactly which strings survive

  lemma NoCharPart(s: string, c: char, lo: nat, hi: nat)
    requires NoChar(s, c) && lo <= hi <= |s|
    ensures NoChar(s[lo..], c) && NoChar(s[lo..][..hi - lo], c)
  {
  }

  lemma TagInHasNoBracket(open: string)
    ensures NoChar(TagIn(open), '>')
  {
    BeforeFirst(open, '>');
  }

  lemma AttrInHasNoQuote(tag: string, attr: string)
    ensures NoChar(AttrIn(tag, attr), '\'') && (NoChar(tag, '>') ==> NoChar(AttrIn(tag, attr), '>'))
  {
    var si := Index(tag, attr + "='");
    if si != -1 {
      var start := si + |attr + "='"|;
      BeforeFirst(tag[start..], '\'');
      var ei := Index(tag[start..], "'");
      hide Index, IndexFrom;
      if NoChar(tag, '>') && ei != -1 {
        NoCharPart(tag, '>', start, start + ei);
      }
    }
  }

  lemma AttrHasNoQuote(block: string, tagPrefix: string, attr: string)
    ensures NoChar(XmlAttr(block, tagPrefix, attr), '\'') && NoChar(XmlAttr(block, tagPrefix, attr), '>')
  {
    var ti := Index(block, tagPrefix);
    hide Index, IndexFrom, TagIn, AttrIn;
    if ti != -1 {
      TagInHasNoBracket(block[ti..]);
      AttrInHasNoQuote(TagIn(block[ti..]), attr);
    }
  }

  /** Whatever the text, no listed disk has an empty field, a quote or a closing bracket in it. */
  lemma {:induction false} ParsedDisksAreClean(xml: string)
    ensures forall d | d in FileDisks(xml) ::
      && d.path != "" && NoChar(d.path, '\'') && NoChar(d.path, '>')
      && d.target != "" && NoChar(d.target, '\'') && NoChar(d.target, '>')
    decreases |xml|
  {
    hide XmlAttr, Index;
    var start := Index(xml, "<disk");
    if start != -1 {
      var rest := xml[start..];
      var end := Index(rest, "</disk>");
      if end != -1 {
        AttrHasNoQuote(rest[..end + 7], "<source", "file");
        AttrHasNoQuote(rest[..end + 7], "<target", "dev");
        ParsedDisksAreClean(rest[end + 7..]);
      }
    }
  }

  /**
    The printer does not escape: among disks whose fields could stand in an XML attribute at
    all, those read back unchanged are exactly the non-empty ones without `'` and `>`.
   */
  lemma FragmentReadBackExactly(d: DiskDevice)
    requires NoChar(d.path, '<') && NoChar(d.target, '<')
    ensures FileDisks(DiskXml(d.path, d.target)) == [d]
       <==> d.path != "" && d.target != "" && CleanText(d.path) && CleanText(d.target)
  {
    hide FileDisks, DiskXml, ReadDisk;
    assert Quiet("");
    NextDisk("", d.path, d.target, "");
    QuietLists("");
    assert "" + DiskXml(d.path, d.target) + "" == DiskXml(d.path, d.target);
    if Printable(d) {
      PrintableReadBack(d);
    } else if FileDisks(DiskXml(d.path, d.target)) == [d] {
      assert d in FileDisks(DiskXml(d.path, d.target));
      ParsedDisksAreClean(DiskXml(d.path, d.target));
    }
  }
}
