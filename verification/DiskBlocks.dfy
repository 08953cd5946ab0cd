/**
  The attributes of a printed disk, read the way the parser reads its path and target: out of
  the blocks that the parser cuts the text into.  And the two attributes of the machine that
  say how it runs and what it boots from.
 */
module DiskBlocks {
  import opened Text
  import opened DomainDescription
  import opened DomainText
  import opened DomainRoundTrip
  import opened NetworkRoundTrip
  import opened TagReader

  // ---------------------------------------------------------------- the blocks

  /** The blocks that parseFileDisks looks into, in order. */
  function Blocks(xml: string): seq<string>
    decreases |xml|
  {
    var start := Index(xml, "<disk");
    if start == -1 then [] else
    var rest := xml[start..];
    var end := Index(rest, "</disk>");
    if end == -1 then [] else
    [rest[..end + |"</disk>"|]] + Blocks(rest[end + |"</disk>"|..])
  }

  function DisksOf(blocks: seq<string>): seq<DiskDevice> {
    if blocks == [] then [] else BlockDisks(blocks[0]) + DisksOf(blocks[1..])
  }

  /** The list of disks is what those blocks contribute. */
  lemma {:induction false} ListIsOfBlocks(xml: string)
    ensures FileDisks(xml) == DisksOf(Blocks(xml))
    decreases |xml|
  {
    FileDisksStep(xml);
    BlocksStep(xml);
    hide Index, BlockDisks, FileDisks, Blocks;
    var start := Index(xml, "<disk");
    if start != -1 {
      var end := Index(xml[start..], "</disk>");
      if end != -1 {
        ListIsOfBlocks(xml[start..][end + |"</disk>"|..]);
        assert Blocks(xml)[1..] == Blocks(xml[start..][end + |"</disk>"|..]);
      }
    }
  }

  lemma BlocksStep(xml: string)
    ensures var start := Index(xml, "<disk");
      if start == -1 then Blocks(xml) == [] else
      var end := Index(xml[start..], "</disk>");
      if end == -1 then Blocks(xml) == [] else
      Blocks(xml) == [xml[start..][..end + |"</disk>"|]] + Blocks(xml[start..][end + |"</disk>"|..])
  {
    hide Index;
  }

  lemma NextBlock(a: string, path: string, target: string, b: string)
    requires Quiet(a) && NoChar(path, '<') && NoChar(target, '<')
    ensures Blocks(a + DiskXml(path, target) + b) == [DiskXml(path, target)] + Blocks(b)
  {
    hide DiskXml, NoChar, Quiet, Index;
    FindFragment(a, path, target, b);
  }

  lemma QuietHasNone(a: string)
    requires Quiet(a)
    ensures Blocks(a) == []
  {
    var i := Index(a, "<disk");
    if i != -1 {
      assert a + "" == a;
      QuietNoDisk(a, "", i);
    }
  }

  function Fragments(ds: seq<DiskDevice>): seq<string> {
    seq(|ds|, i requires 0 <= i < |ds| => DiskXml(ds[i].path, ds[i].target))
  }

  lemma NoFragments()
    ensures Fragments([]) == []
  {
  }

  lemma FragmentsCons(d: DiskDevice, ds: seq<DiskDevice>)
    ensures Fragments([d] + ds) == [DiskXml(d.path, d.target)] + Fragments(ds)
  {
    hide DiskXml;
  }

  lemma ListedCons(ds: seq<DiskDevice>, i: nat)
    requires i < |ds|
    ensures ds[i].path == "" ==> Listed(ds, i) == Listed(ds, i + 1)
    ensures ds[i].path != "" ==> Listed(ds, i) == [DiskDevice(ds[i].path, TargetOf(ds[i], i))] + Listed(ds, i + 1)
  {
    hide TargetOf;
  }

  lemma {:induction false} ExtraBlocks(ds: seq<DiskDevice>, i: nat, tail: string)
    requires i <= |ds| && forall k :: 0 <= k < |ds| ==> TaglessDisk(ds[k])
    requires Quiet(tail)
    ensures Blocks(ExtrasXml(ds, i) + tail) == Fragments(Listed(ds, i))
    decreases |ds| - i
  {
    hide Blocks, DiskXml, Quiet, TargetOf, NoChar, ReadListed, Fragments;
    if i == |ds| {
      assert "" + tail == tail;
      QuietHasNone(tail);
      NoFragments();
    } else {
      ExtraBlocks(ds, i + 1, tail);
      assert TaglessDisk(ds[i]);
      hide ExtrasXml, Listed, TaglessDisk;
      OneMoreBlock(ds, i, tail);
    }
  }

  lemma OneMoreBlock(ds: seq<DiskDevice>, i: nat, tail: string)
    requires i < |ds| && TaglessDisk(ds[i])
    requires Blocks(ExtrasXml(ds, i + 1) + tail) == Fragments(Listed(ds, i + 1))
    ensures Blocks(ExtrasXml(ds, i) + tail) == Fragments(Listed(ds, i))
  {
    ExtrasStep(ds, i, tail);
    ListedCons(ds, i);
    BlanksQuiet();
    TargetTagless(ds[i], i);
    assert NoChar(ds[i].path, '<');
    hide *;
    if ds[i].path != "" {
      NextBlock("\n    ", ds[i].path, TargetOf(ds[i], i), ExtrasXml(ds, i + 1) + tail);
      FragmentsCons(DiskDevice(ds[i].path, TargetOf(ds[i], i)), Listed(ds, i + 1));
    }
  }

  lemma DisksBetween(head: string, cfg: VMConfig, tail: string)
    requires TaglessConfig(cfg) && Quiet(head) && Quiet(tail)
    ensures Blocks(head + DisksXml(cfg) + tail) == Fragments(ConfigDisks(cfg))
  {
    var extras, first := ExtrasXml(cfg.extraDisks, 0), DiskXml(cfg.diskPath, "vda");
    BlanksQuiet();
    assert NoChar("vda", '<');
    hide Blocks, DiskXml, ExtrasXml, Listed, Quiet, NoChar, Fragments, TaglessDisk;
    QuietConcat(head, "    ");
    RegroupDisks(head, "    ", first, extras, tail);
    NextBlock(head + "    ", cfg.diskPath, "vda", extras + tail);
    ExtraBlocks(cfg.extraDisks, 0, tail);
    FragmentsCons(DiskDevice(cfg.diskPath, "vda"), Listed(cfg.extraDisks, 0));
  }

  /** The blocks of a printed domain are the fragments of its disks, in order. */
  lemma BlocksAreFragments(cfg: VMConfig)
    requires TaglessConfig(cfg)
    ensures Blocks(DomainXml(cfg)) == Fragments(ConfigDisks(cfg))
  {
    hide Blocks, DisksXml, ConfigDisks, Quiet, Header, Trailer, Fragments;
    HeaderText(cfg);
    TrailerText(cfg);
    DisksBetween(Header(cfg), cfg, Trailer(cfg));
  }

  // ---------------------------------------------------------------- attributes

  lemma CleanAsRead(v: string)
    requires NoChar(v, '>') && NoChar(v, '\'')
    ensures AsRead(v) == v
  {
    NotFound(v, '>');
    NotFound(v, '\'');
  }

  /** An attribute behind others in a tag that is found where it stands. */
  lemma AttrBehind(pre: string, prefix: string, front: string, attr: string, v: string, mid: string, post: string)
    requires |attr| > 0 && NoChar(front, '>') && NoChar(attr, '>') && NoChar(mid, '>')
    requires Skips(front + " ", attr + "='") && NoChar(v, '>') && NoChar(v, '\'')
    requires Index(pre + (front + " " + (attr + "='") + (v + "'" + (mid + ">" + post))), prefix) == |pre|
    ensures XmlAttr(pre + (front + " " + (attr + "='") + (v + "'" + (mid + ">" + post))), prefix, attr) == v
  {
    var start, value := front + " " + (attr + "='"), v + "'" + (mid + ">" + post);
    var open := start + value;
    assert NoChar(start, '>');
    TagInBehind(start, value);
    CutAsRead(v, mid, post);
    CleanAsRead(v);
    var marker := attr + "='";
    hide Index, At, TagIn, UpToQuote, AsRead, NoChar, Skips;
    FindAfter(front + " ", marker, TagIn(value));
    assert (front + " " + marker + TagIn(value))[|front + " " + marker|..] == TagIn(value);
    assert AttrIn(start + TagIn(value), attr) == UpToQuote(TagIn(value)) by {
      assert start + TagIn(value) == front + " " + marker + TagIn(value);
    }
    assert (pre + open)[|pre|..] == open;
  }

  // A disk fragment's attributes.

  lemma DiskTagIs()
    ensures TagText(DISK_TAG) ==
      "<disk" + " " + ("type" + "='") + ("file" + "'" + (" device='disk'" + ">" + "\n      "))
  {
  }

  lemma DiskTagAgain()
    ensures TagText(DISK_TAG) ==
      "<disk type='file'" + " " + ("device" + "='") + ("disk" + "'" + ("" + ">" + "\n      "))
  {
  }

  lemma DriverTagIs()
    ensures TagText(DRIVER_TAG) ==
      "<driver name='qemu'" + " " + ("type" + "='") + ("qcow2" + "'" + ("/" + ">" + "\n      "))
  {
  }

  lemma DriverTagAgain()
    ensures TagText(DRIVER_TAG) ==
      "<driver" + " " + ("name" + "='") + ("qemu" + "'" + (" type='qcow2'/" + ">" + "\n      "))
  {
  }

  /** An attribute of one tag of a text. */
  lemma AttrOfTag(block: string, pre: string, text: string, rest: string, prefix: string,
                  front: string, attr: string, v: string, mid: string, after: string)
    requires |attr| > 0 && NoChar(front, '>') && NoChar(attr, '>') && NoChar(mid, '>')
    requires Skips(front + " ", attr + "='") && NoChar(v, '>') && NoChar(v, '\'')
    requires block == pre + text + rest && Index(block, prefix) == |pre|
    requires text == front + " " + (attr + "='") + (v + "'" + (mid + ">" + after))
    ensures XmlAttr(block, prefix, attr) == v
  {
    hide Index, XmlAttr, Skips, NoChar;
    TagAndRest(pre, front + " " + (attr + "='"), v + "'", mid + ">", after, rest);
    Nested(v + "'", mid + ">", after + rest);
    MidAfter(mid, ">", after, rest);
    AttrBehind(pre, prefix, front, attr, v, mid, after + rest);
  }

  lemma TagAndRest(pre: string, a: string, b: string, c: string, d: string, rest: string)
    ensures pre + (a + (b + (c + d))) + rest == pre + (a + (b + (c + (d + rest))))
  {
  }

  lemma Nested(a: string, b: string, c: string)
    ensures a + (b + c) == a + b + c
  {
  }

  lemma MidAfter(a: string, b: string, c: string, d: string)
    ensures a + b + c + d == a + b + (c + d)
  {
  }

  lemma FixedValues()
    ensures NoChar("file", '>') && NoChar("file", '\'') && NoChar("disk", '>') && NoChar("disk", '\'')
    ensures NoChar("qemu", '>') && NoChar("qemu", '\'') && NoChar("qcow2", '>') && NoChar("qcow2", '\'')
    ensures NoChar("virtio", '>') && NoChar("virtio", '\'')
    ensures NoChar("type", '>') && NoChar("device", '>') && NoChar("name", '>') && NoChar("bus", '>')
  {
  }

  lemma DiskFronts()
    ensures NoChar("<disk", '>') && NoChar("<disk type='file'", '>') && NoChar(" device='disk'", '>') && NoChar("", '>')
    ensures Skips("<disk" + " ", "type" + "='") && Skips("<disk type='file'" + " ", "device" + "='")
  {
  }

  lemma DriverFronts()
    ensures NoChar("<driver", '>') && NoChar("<driver name='qemu'", '>') && NoChar(" type='qcow2'/", '>')
    ensures NoChar("/", '>') && Skips("<driver" + " ", "name" + "='")
    ensures Skips("<driver name='qemu'" + " ", "type" + "='")
  {
  }

  /** What follows the disk tag, and what follows the driver tag. */
  lemma FragmentSplit(path: string, target: string)
    ensures exists rest :: DiskXml(path, target) == "" + TagText(DISK_TAG) + (TagText(DRIVER_TAG) + rest)
                        && DiskXml(path, target) == TagText(DISK_TAG) + TagText(DRIVER_TAG) + rest
  {
    hide TagText;
    var rest := SOURCE_OPEN + path + (SOURCE_CLOSE + TARGET_OPEN + target + TARGET_CLOSE + DISK_CLOSE);
    PrefixParts();
    assert DiskXml(path, target) == TagText(DISK_TAG) + TagText(DRIVER_TAG) + rest;
    assert "" + TagText(DISK_TAG) + (TagText(DRIVER_TAG) + rest) == TagText(DISK_TAG) + TagText(DRIVER_TAG) + rest;
  }

  lemma DiskTypeRead(path: string, target: string)
    ensures XmlAttr(DiskXml(path, target), "<disk", "type") == "file"
    ensures XmlAttr(DiskXml(path, target), "<disk", "device") == "disk"
  {
    FragmentParts(path, target);
    FragmentSplit(path, target);
    DiskTagIs();
    DiskTagAgain();
    FixedValues();
    DiskFronts();
    hide DiskXml, TagText, NoChar, Skips, XmlAttr, Index, At;
    var block := DiskXml(path, target);
    var rest :| block == "" + TagText(DISK_TAG) + (TagText(DRIVER_TAG) + rest);
    IndexIs(block, "<disk", 0);
    AttrOfTag(block, "", TagText(DISK_TAG), TagText(DRIVER_TAG) + rest, "<disk", "<disk", "type", "file",
              " device='disk'", "\n      ");
    AttrOfTag(block, "", TagText(DISK_TAG), TagText(DRIVER_TAG) + rest, "<disk", "<disk type='file'", "device", "disk",
              "", "\n      ");
  }

  lemma DriverStarts()
    ensures At(TagText(DRIVER_TAG), "<driver", 0)
    ensures |TagText(DISK_TAG)| > 2 && TagText(DISK_TAG)[2] == 'i' && "<driver"[2] == 'r'
    ensures forall i :: 0 < i < |TagText(DISK_TAG)| ==> TagText(DISK_TAG)[i] != '<'
  {
    FragmentTags();
    PlainNoLt(DISK_TAG.body);
    PlainNoLt(DISK_TAG.after);
    TagRestText(DISK_TAG);
    assert DRIVER_TAG.body[..6] == "driver" && TagText(DRIVER_TAG)[..7] == "<" + DRIVER_TAG.body[..6];
    hide TagRest;
    DiskTagStarts();
    assert TagText(DISK_TAG)[..5] == "<disk";
  }

  lemma FindDriver(rest: string)
    ensures Index(TagText(DISK_TAG) + TagText(DRIVER_TAG) + rest, "<driver") == |TagText(DISK_TAG)|
  {
    DriverStarts();
    hide TagText, Index;
    var pre, s := TagText(DISK_TAG), TagText(DISK_TAG) + TagText(DRIVER_TAG) + rest;
    forall j | 0 <= j < |pre|
      ensures !At(s, "<driver", j)
    {
      NotAt(s, "<driver", j, if j == 0 then 2 else 0);
    }
    assert s[|pre|..|pre| + 7] == TagText(DRIVER_TAG)[0..7];
    IndexIs(s, "<driver", |pre|);
  }

  lemma DriverRead(path: string, target: string)
    ensures XmlAttr(DiskXml(path, target), "<driver", "name") == "qemu"
    ensures XmlAttr(DiskXml(path, target), "<driver", "type") == "qcow2"
  {
    FragmentSplit(path, target);
    DriverTagIs();
    DriverTagAgain();
    FixedValues();
    DriverFronts();
    hide DiskXml, TagText, NoChar, Skips, XmlAttr, Index, At;
    var block := DiskXml(path, target);
    var rest :| block == TagText(DISK_TAG) + TagText(DRIVER_TAG) + rest;
    FindDriver(rest);
    AttrOfTag(block, TagText(DISK_TAG), TagText(DRIVER_TAG), rest, "<driver", "<driver", "name", "qemu",
              " type='qcow2'/", "\n      ");
    AttrOfTag(block, TagText(DISK_TAG), TagText(DRIVER_TAG), rest, "<driver", "<driver name='qemu'", "type", "qcow2",
              "/", "\n      ");
  }

  lemma BusText(target: string)
    ensures TARGET_OPEN + target + TARGET_CLOSE ==
      ("<target dev='" + target + "'") + " " + ("bus" + "='") + ("virtio" + "'" + ("/" + ">" + "\n    "))
  {
    assert TARGET_CLOSE == "'" + " " + ("bus" + "='") + ("virtio" + "'" + ("/" + ">" + "\n    "));
  }

  /** A target that does not look like an attribute itself. */
  predicate DeviceName(target: string) {
    NoChar(target, '>') && NoChar(target, '\'') && NoChar(target, 'u')
  }

  lemma BusFront(target: string)
    requires DeviceName(target)
    ensures NoChar("<target dev='" + target + "'", '>') && Skips("<target dev='" + target + "'" + " ", "bus" + "='")
  {
    var open, marker := "<target dev='", "bus" + "='";
    assert NoChar(open, '>') && NoChar(open, 'u') && NoChar("'", 'u') && marker[0] == 'b' && marker[1] == 'u';
    var front := open + target + "'" + " ";
    forall i | 0 <= i < |front| && front[i] == 'b'
      ensures i + 1 < |front| && front[i + 1] != 'u'
    {
      assert front[|front| - 1] == ' ' && front[|front| - 2] == '\'';
    }
  }

  lemma BusRead(path: string, target: string)
    requires NoChar(path, '<') && DeviceName(target)
    ensures XmlAttr(DiskXml(path, target), "<target", "bus") == "virtio"
  {
    var pre, text := DISK_PREFIX + path + SOURCE_CLOSE, TARGET_OPEN + target + TARGET_CLOSE;
    PathSkips(path, "<target");
    BusText(target);
    BusFront(target);
    FixedValues();
    assert NoChar("/", '>');
    FragmentParts(path, target);
    TargetFirst(target);
    hide DiskXml, NoChar, Skips, XmlAttr, Index;
    var block := DiskXml(path, target);
    assert block == pre + text + DISK_CLOSE;
    var behind :| text == "<target" + behind;
    assert block == pre + "<target" + (behind + DISK_CLOSE);
    FindAfter(pre, "<target", behind + DISK_CLOSE);
    AttrOfTag(block, pre, text, DISK_CLOSE, "<target", "<target dev='" + target + "'", "bus", "virtio", "/", "\n    ");
  }

  lemma TargetFirst(target: string)
    ensures exists behind :: TARGET_OPEN + target + TARGET_CLOSE == "<target" + behind
  {
    assert TARGET_OPEN == "<target" + " dev='";
    assert "<target" + " dev='" + target + TARGET_CLOSE == "<target" + (" dev='" + target + TARGET_CLOSE);
  }

  /** What libvirt is told of a disk: a file with a qcow2 image, attached as a virtio disk. */
  predicate DescribesDisk(block: string, d: DiskDevice) {
    && XmlAttr(block, "<disk", "type") == "file" && XmlAttr(block, "<disk", "device") == "disk"
    && XmlAttr(block, "<driver", "name") == "qemu" && XmlAttr(block, "<driver", "type") == "qcow2"
    && XmlAttr(block, "<source", "file") == AsRead(d.path) && XmlAttr(block, "<target", "dev") == AsRead(d.target)
    && (DeviceName(d.target) ==> XmlAttr(block, "<target", "bus") == "virtio")
  }

  lemma FragmentDescribes(d: DiskDevice)
    requires NoChar(d.path, '<')
    ensures DescribesDisk(DiskXml(d.path, d.target), d)
  {
    hide XmlAttr, DiskXml, DeviceName, AsRead;
    DiskTypeRead(d.path, d.target);
    DriverRead(d.path, d.target);
    BlockPath(d.path, d.target);
    BlockTarget(d.path, d.target);
    if DeviceName(d.target) {
      BusRead(d.path, d.target);
    }
  }

  /**
    Every disk of a printed domain is described to libvirt as a file with a qcow2 image on the
    virtio bus: in each of the blocks that the list of disks is read from, one for each
    configured disk in order, those are the values.
   */
  lemma DiskAttributes(cfg: VMConfig)
    requires TaglessConfig(cfg)
    ensures var blocks, ds := Blocks(DomainXml(cfg)), ConfigDisks(cfg);
      && FileDisks(DomainXml(cfg)) == DisksOf(blocks) && |blocks| == |ds|
      && (forall i :: 0 <= i < |ds| ==> DescribesDisk(blocks[i], ds[i]))
  {
    ConfigTagless(cfg);
    ListIsOfBlocks(DomainXml(cfg));
    BlocksAreFragments(cfg);
    hide Blocks, DomainXml, FileDisks, DisksOf, DescribesDisk, DiskXml, ConfigDisks, NoChar, TaglessConfig;
    var ds := ConfigDisks(cfg);
    forall i | 0 <= i < |ds|
      ensures DescribesDisk(Fragments(ds)[i], ds[i])
    {
      FragmentDescribes(ds[i]);
    }
  }

  /** Attaching a disk leaves the descriptions of the others and adds one like them. */
  lemma AttachedDiskAttributes(cfg: VMConfig, d: DiskDevice)
    requires TaglessConfig(cfg) && TaglessDisk(d) && d.path != "" && d.target != ""
    ensures var xml, ds := Splice(DomainXml(cfg), DiskXml(d.path, d.target)), ConfigDisks(cfg) + [d];
      && |Blocks(xml)| == |ds| && Blocks(xml)[..|ds| - 1] == Blocks(DomainXml(cfg))
      && (forall i :: 0 <= i < |ds| ==> DescribesDisk(Blocks(xml)[i], ds[i]))
  {
    var more := cfg.(extraDisks := cfg.extraDisks + [d]);
    hide Blocks, DomainXml, Splice, DescribesDisk, DiskXml, ConfigDisks, NoChar;
    MoreTagless(cfg, d);
    AttachAppends(cfg, d);
    DiskAttributes(more);
    BlocksAreFragments(cfg);
    BlocksAreFragments(more);
    hide TaglessConfig, TaglessDisk;
  }

  lemma MoreTagless(cfg: VMConfig, d: DiskDevice)
    requires TaglessConfig(cfg) && TaglessDisk(d)
    ensures TaglessConfig(cfg.(extraDisks := cfg.extraDisks + [d]))
  {
    hide TaglessDisk, NoChar;
  }

  lemma ConfigTagless(cfg: VMConfig)
    requires TaglessConfig(cfg)
    ensures forall d :: d in ConfigDisks(cfg) ==> NoChar(d.path, '<') && NoChar(d.target, '<')
  {
    assert NoChar("vda", '<');
    ListedTagless(cfg.extraDisks, 0);
    hide Listed, NoChar;
  }

  lemma {:induction false} ListedTagless(ds: seq<DiskDevice>, i: nat)
    requires i <= |ds| && forall k :: 0 <= k < |ds| ==> TaglessDisk(ds[k])
    ensures forall d :: d in Listed(ds, i) ==> NoChar(d.path, '<') && NoChar(d.target, '<')
    decreases |ds| - i
  {
    if i < |ds| {
      assert TaglessDisk(ds[i]);
      TargetTagless(ds[i], i);
      hide NoChar, TargetOf;
      ListedTagless(ds, i + 1);
    }
  }

  // ---------------------------------------------------------------- the machine

  lemma DomainTagIs()
    ensures TagText(DOMAIN_TAG) == "<domain" + " " + ("type" + "='") + ("kvm" + "'" + ("" + ">" + "\n  "))
    ensures NoChar("<domain", '>') && Skips("<domain" + " ", "type" + "='") && NoChar("kvm", '>') && NoChar("kvm", '\'')
  {
  }

  lemma DomainTagFirst(rest: string)
    ensures Index("" + TagText(DOMAIN_TAG) + rest, "<domain") == 0
  {
    DomainTagIs();
    hide TagText, Index;
    var s := "" + TagText(DOMAIN_TAG) + rest;
    assert s[..7] == "<domain";
    IndexIs(s, "<domain", 0);
  }

  lemma DomainSplit(cfg: VMConfig) returns (rest: string)
    ensures DomainXml(cfg) == "" + TagText(DOMAIN_TAG) + rest
  {
    NameFirst(cfg);
    hide *;
    var behind :| DomainXml(cfg) == TagText(DOMAIN_TAG) + "<name>" + (cfg.name + "</name>" + behind);
    rest := "<name>" + (cfg.name + "</name>" + behind);
    Nested(TagText(DOMAIN_TAG), "<name>", cfg.name + "</name>" + behind);
    assert "" + TagText(DOMAIN_TAG) == TagText(DOMAIN_TAG);
  }

  /** A printed domain is a KVM domain. */
  lemma DomainTypeRead(cfg: VMConfig)
    ensures XmlAttr(DomainXml(cfg), "<domain", "type") == "kvm"
  {
    var rest := DomainSplit(cfg);
    DomainTagIs();
    FixedValues();
    assert NoChar("", '>');
    DomainTagFirst(rest);
    hide *;
    AttrOfTag(DomainXml(cfg), "", TagText(DOMAIN_TAG), rest, "<domain", "<domain", "type", "kvm", "", "\n  ");
  }

  lemma BootTagIs()
    ensures TagText(OS_TAGS[3]) == "<boot" + " " + ("dev" + "='") + ("hd" + "'" + ("/" + ">" + "\n  "))
    ensures NoChar("<boot", '>') && NoChar("/", '>') && NoChar("dev", '>') && NoChar("hd", '>') && NoChar("hd", '\'')
    ensures Skips("<boot" + " ", "dev" + "='")
  {
  }

  /** The tags between the name and the boot device. */
  function BootTags(cfg: VMConfig): seq<Tag> {
    SizingTags(cfg) + OS_TAGS[..3]
  }

  lemma SizingNotB(cfg: VMConfig)
    ensures forall i :: 0 <= i < |SizingTags(cfg)| ==> StartsOther(SizingTags(cfg)[i], 'b')
  {
    hide Dec;
  }

  lemma OsNotB()
    ensures forall i :: 0 <= i < 3 ==> StartsOther(OS_TAGS[i], 'b')
  {
  }

  lemma BeforeBootSkips(cfg: VMConfig)
    requires NoChar(cfg.name, '<')
    ensures Skips(BeforeMemory(cfg) + Render(BootTags(cfg)), "<boot")
  {
    SizingPlain(cfg);
    OsPlain();
    SizingNotB(cfg);
    OsNotB();
    assert "<boot"[0] == '<' && "<boot"[1] == 'b';
    hide SizingTags, PlainTag, StartsOther, Skips, BeforeMemory;
    RenderSkips(BootTags(cfg), "<boot");
    BeforeMemorySkips(cfg, "<boot");
    SkipsConcat(BeforeMemory(cfg), Render(BootTags(cfg)), "<boot");
  }

  lemma SettingsAtBoot(cfg: VMConfig)
    ensures exists more :: Render(SettingTags(cfg)) == Render(BootTags(cfg)) + (TagText(OS_TAGS[3]) + more)
  {
    var front, behind := BootTags(cfg), OS_TAGS[4..] + FEATURE_TAGS;
    assert SettingTags(cfg) == front + ([OS_TAGS[3]] + behind);
    hide Render, SettingTags, BootTags, TagText;
    RenderConcat(front, [OS_TAGS[3]] + behind);
    RenderStep(OS_TAGS[3], behind);
  }

  lemma BootSplit(cfg: VMConfig)
    ensures exists rest ::
      DomainXml(cfg) == BeforeMemory(cfg) + Render(BootTags(cfg)) + TagText(OS_TAGS[3]) + rest
  {
    SettingsAtBoot(cfg);
    HeaderIs(cfg);
    hide Render, SettingTags, BootTags, TagText, DisksXml, Trailer, Header, BeforeMemory;
    var more :| Render(SettingTags(cfg)) == Render(BootTags(cfg)) + (TagText(OS_TAGS[3]) + more);
    FiveParts(BeforeMemory(cfg), Render(BootTags(cfg)), TagText(OS_TAGS[3]), more, DisksXml(cfg), Trailer(cfg));
  }

  lemma HeaderIs(cfg: VMConfig)
    ensures Header(cfg) == BeforeMemory(cfg) + Render(SettingTags(cfg))
  {
    hide TagText, SettingTags, Render;
    Reassoc4(TagText(DOMAIN_TAG), TagText(Open("name", cfg.name)), TagText(NAME_CLOSE), Render(SettingTags(cfg)));
  }

  lemma FiveParts(a: string, b: string, t: string, c: string, d: string, e: string)
    ensures a + (b + (t + c)) + d + e == a + b + t + (c + d + e)
  {
  }

  lemma BootAt(pre: string, rest: string)
    requires Skips(pre, "<boot")
    ensures Index(pre + TagText(OS_TAGS[3]) + rest, "<boot") == |pre|
  {
    BootTagIs();
    hide TagText, Index, Skips;
    var behind := " " + ("dev" + "='") + ("hd" + "'" + ("/" + ">" + "\n  "));
    assert TagText(OS_TAGS[3]) == "<boot" + behind;
    assert pre + TagText(OS_TAGS[3]) + rest == pre + "<boot" + (behind + rest);
    FindAfter(pre, "<boot", behind + rest);
  }

  /** A printed domain boots from its disk. */
  lemma BootDeviceRead(cfg: VMConfig)
    requires NoChar(cfg.name, '<')
    ensures XmlAttr(DomainXml(cfg), "<boot", "dev") == "hd"
  {
    BootSplit(cfg);
    BeforeBootSkips(cfg);
    BootTagIs();
    hide DomainXml, TagText, XmlAttr, NoChar, Skips, Index, Render, BootTags, BeforeMemory;
    var pre := BeforeMemory(cfg) + Render(BootTags(cfg));
    var rest :| DomainXml(cfg) == pre + TagText(OS_TAGS[3]) + rest;
    BootAt(pre, rest);
    AttrOfTag(DomainXml(cfg), pre, TagText(OS_TAGS[3]), rest, "<boot", "<boot", "dev", "hd", "/", "\n  ");
  }
}
