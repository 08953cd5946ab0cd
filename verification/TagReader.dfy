/**
  The whole description, read tag by tag.  A reader that knows only brackets and slashes gets
  back every tag of the template, with every attribute and all text between tags, the disks in
  their places: nothing that vmtool prints runs into anything else.
 */
module TagReader {
  import opened Text
  import opened DomainDescription
  import opened DomainText
  import opened DomainRoundTrip

  // ---------------------------------------------------------------- the reader

  /** What stands between two brackets: a slash in front closes, a slash at the end closes at once. */
  function TagOf(inside: string, after: string): Tag {
    if inside != "" && inside[0] == '/' then Close(inside[1..], after)
    else if inside != "" && inside[|inside| - 1] == '/' then Empty(inside[..|inside| - 1], after)
    else Open(inside, after)
  }

  /** The text up to the next tag. */
  function UpToTag(text: string): string {
    var lt := Index(text, "<");
    if lt == -1 then text else text[..lt]
  }

  /** The tags of a text in order, each with the text behind it. */
  function ReadTags(text: string): seq<Tag>
    decreases |text|
  {
    var lt := Index(text, "<");
    if lt == -1 then [] else
    var rest := text[lt + 1..];
    var gt := Index(rest, ">");
    if gt == -1 then [] else
    [TagOf(rest[..gt], UpToTag(rest[gt + 1..]))] + ReadTags(rest[gt + 1..])
  }

  // ---------------------------------------------------------------- reader after printer, tag by tag

  /** A tag that can be told from its neighbours: no closing bracket inside, no opening one behind, no stray slash. */
  predicate Readable(t: Tag) {
    && NoChar(t.body, '>') && NoChar(t.after, '<') && t.body != ""
    && (t.Close? || t.body[0] != '/') && (t.Open? ==> t.body[|t.body| - 1] != '/')
  }

  predicate AllReadable(tags: seq<Tag>) {
    forall i :: 0 <= i < |tags| ==> Readable(tags[i])
  }

  /** What a tag's brackets enclose. */
  function Inside(t: Tag): string {
    match t
    case Open(body, _) => body
    case Close(body, _) => "/" + body
    case Empty(body, _) => body + "/"
  }

  lemma InsideText(t: Tag)
    ensures TagText(t) == "<" + Inside(t) + ">" + t.after
  {
    match t
    case Open(body, after) => assert "<" + (body + (">" + after)) == "<" + body + ">" + after;
    case Close(body, after) => assert "<" + ("/" + body + (">" + after)) == "<" + ("/" + body) + ">" + after;
    case Empty(body, after) =>
      assert "/" + ">" == "/>";
      assert "<" + (body + ("/" + ">" + after)) == "<" + (body + "/") + ">" + after;
  }

  lemma InsideRead(t: Tag)
    requires Readable(t)
    ensures TagOf(Inside(t), t.after) == t && NoChar(Inside(t), '>')
  {
    hide NoChar;
    NoBracketInside(t);
    match t
    case Open(body, _) =>
    case Close(body, _) => assert ("/" + body)[1..] == body;
    case Empty(body, _) => assert (body + "/")[..|body + "/"| - 1] == body && (body + "/")[0] == body[0];
  }

  lemma NoBracketInside(t: Tag)
    requires NoChar(t.body, '>')
    ensures NoChar(Inside(t), '>')
  {
  }

  lemma ReadStep(inside: string, after: string, tail: string)
    requires NoChar(inside, '>') && NoChar(after, '<') && (tail == "" || tail[0] == '<')
    ensures ReadTags("<" + inside + ">" + after + tail) == [TagOf(inside, after)] + ReadTags(after + tail)
  {
    var text, behind := "<" + inside + ">" + after + tail, after + tail;
    AfterRead(after, tail);
    Reassoc("<" + inside + ">", after, tail);
    hide *;
    ReadParts(text, inside, behind);
    ReadOne(text, inside, behind);
  }

  lemma ReadOne(text: string, inside: string, behind: string)
    requires text != "" && Index(text, "<") == 0 && Index(text[1..], ">") == |inside| < |text[1..]|
    requires text[1..][..|inside|] == inside && text[1..][|inside| + 1..] == behind
    ensures ReadTags(text) == [TagOf(inside, UpToTag(behind))] + ReadTags(behind)
  {
    hide Index, UpToTag, TagOf;
  }

  lemma ReadParts(text: string, inside: string, behind: string)
    requires NoChar(inside, '>') && text == "<" + inside + ">" + behind
    ensures text != "" && Index(text, "<") == 0 && Index(text[1..], ">") == |inside| < |text[1..]|
    ensures text[1..][..|inside|] == inside && text[1..][|inside| + 1..] == behind
  {
    hide Index, At;
    assert text[0] == '<' && text[..0] == "";
    FirstAt(text, '<', 0);
    assert text[1..] == inside + ">" + behind;
    FindChar(inside, '>', behind);
  }

  lemma AfterRead(after: string, tail: string)
    requires NoChar(after, '<') && (tail == "" || tail[0] == '<')
    ensures UpToTag(after + tail) == after
  {
    hide Index;
    if tail == "" {
      assert after + tail == after;
      NotFound(after, '<');
    } else {
      assert (after + tail)[..|after|] == after;
      FirstAt(after + tail, '<', |after|);
    }
  }

  /** Text without a tag in front of it changes nothing. */
  lemma SkipText(after: string, text: string)
    requires NoChar(after, '<') && (text == "" || text[0] == '<')
    ensures ReadTags(after + text) == ReadTags(text)
  {
    if text == "" {
      assert after + text == after;
      NotFound(after, '<');
      NotFound(text, '<');
    } else {
      assert (after + text)[..|after|] == after && text[..0] == "";
      FirstAt(after + text, '<', |after|);
      FirstAt(text, '<', 0);
      hide Index;
      assert (after + text)[|after| + 1..] == text[1..];
    }
  }

  lemma RenderStarts(tags: seq<Tag>)
    ensures Render(tags) == "" || Render(tags)[0] == '<'
  {
    hide TagRest;
  }

  lemma OneTag(t: Tag, tail: string)
    requires Readable(t) && (tail == "" || tail[0] == '<')
    ensures ReadTags(TagText(t) + tail) == [t] + ReadTags(tail)
  {
    var inside := Inside(t);
    InsideText(t);
    InsideRead(t);
    AfterPlain(t);
    hide *;
    ReadStep(inside, t.after, tail);
    SkipText(t.after, tail);
  }

  lemma AfterPlain(t: Tag)
    requires Readable(t)
    ensures NoChar(t.after, '<')
  {
  }

  /** Reading undoes rendering. */
  lemma {:induction false} ReaderUndoesRenderer(tags: seq<Tag>)
    requires AllReadable(tags)
    ensures ReadTags(Render(tags)) == tags
  {
    if tags == [] {
      NotFound("", '<');
    } else {
      var t, rest := tags[0], tags[1..];
      hide ReadTags, TagText, Readable;
      ReaderUndoesRenderer(rest);
      RenderStarts(rest);
      assert Readable(t);
      OneTag(t, Render(rest));
      assert tags == [t] + rest;
    }
  }

  // ---------------------------------------------------------------- what a description is to say

  function DiskTags(d: DiskDevice): seq<Tag> {
    [Open("disk type='file' device='disk'", "\n      "),
     Empty("driver name='qemu' type='qcow2'", "\n      "),
     Empty("source file='" + d.path + "'", "\n      "),
     Empty("target dev='" + d.target + "' bus='virtio'", "\n    "),
     Close("disk", "\n    ")]
  }

  function DisksTags(ds: seq<DiskDevice>): seq<Tag> {
    if ds == [] then [] else DiskTags(ds[0]) + DisksTags(ds[1..])
  }

  function InterfaceTags(n: NetworkConfig): seq<Tag> {
    var source := if n.kind == Nat && n.source == "" then "default" else n.source;
    var mode := if n.macvtapMode == "" then "bridge" else n.macvtapMode;
    match n.kind
    case Nat =>
      [Open("interface type=\"network\"", "\n      "), Empty("source network=\"" + source + "\"", "\n      "),
       Empty("model type=\"virtio\"", "\n    "), Close("interface", "\n    ")]
    case Bridge =>
      [Open("interface type=\"bridge\"", "\n      "), Empty("source bridge=\"" + source + "\"", "\n      "),
       Empty("model type=\"virtio\"", "\n    "), Close("interface", "\n    ")]
    case Direct =>
      [Open("interface type=\"direct\"", "\n      "),
       Empty("source dev=\"" + source + "\" mode=\"" + mode + "\"", "\n      "),
       Empty("model type=\"virtio\"", "\n    "), Close("interface", "\n    ")]
  }

  function MachineTags(cfg: VMConfig): seq<Tag> {
    [Open("domain type='kvm'", "\n  "),
     Open("name", cfg.name), Close("name", "\n  "),
     Open("memory unit='GiB'", Dec(cfg.memory)), Close("memory", "\n  "),
     Open("vcpu", Dec(cfg.vcpus)), Close("vcpu", "\n  "),
     Open("os", "\n    "),
     Open("type arch='x86_64' machine='q35'", "hvm"), Close("type", "\n    "),
     Empty("boot dev='hd'", "\n  "),
     Close("os", "\n  "),
     Open("features", "\n    "), Empty("acpi", "\n    "), Empty("apic", "\n  "), Close("features", "\n  "),
     Empty("cpu mode='host-passthrough' check='none'", "\n  "),
     Open("devices", "\n    ")]
  }

  /** The devices that every VM has. */
  function FixedTags(): seq<Tag> {
    [Open("serial type='pty'", "\n      "), Empty("target port='0'", "\n    "), Close("serial", "\n    ")]
    + [Open("console type='pty'", "\n      "), Empty("target type='serial' port='0'", "\n    "),
       Close("console", "\n    ")]
    + [Open("graphics type='vnc' " + "port='-1' autoport='yes'", "\n      "),
       Empty("listen type='address' " + "address='127.0.0.1'", "\n    "),
       Close("graphics", "\n    ")]
    + [Open("video", "\n      "),
       Empty("model type='qxl' ram='65536' " + "vram='65536' vgamem='16384' " + "heads='1' primary='yes'", "\n    "),
       Close("video", "\n    ")]
    + [Open("channel type='unix'", "\n      "),
       Empty("target type='virtio' " + "name='org.qemu.guest_agent.0'", "\n    "),
       Close("channel", "\n    ")]
    + [Empty("memballoon model='virtio'", "\n    "),
       Open("rng model='virtio'", "\n      "),
       Open("backend model='random'", "/dev/urandom"), Close("backend", "\n    "),
       Close("rng", "\n  "),
       Close("devices", "\n"),
       Close("domain", "")]
  }

  /** The description of a VM: its machine, its disks, its interface, and the devices that every VM has. */
  function Described(cfg: VMConfig): seq<Tag> {
    MachineTags(cfg) + DisksTags(ConfigDisks(cfg)) + InterfaceTags(cfg.network) + FixedTags()
  }

  // ---------------------------------------------------------------- the printer prints that

  lemma {:induction false} RenderConcat(a: seq<Tag>, b: seq<Tag>)
    ensures Render(a + b) == Render(a) + Render(b)
  {
    hide TagText;
    if a == [] {
      assert a + b == b;
      assert "" + Render(b) == Render(b);
    } else {
      RenderConcat(a[1..], b);
      assert a + b == [a[0]] + (a[1..] + b) && a == [a[0]] + a[1..];
      RenderStep(a[0], a[1..] + b);
      RenderStep(a[0], a[1..]);
      hide Render;
      Reassoc(TagText(a[0]), Render(a[1..]), Render(b));
    }
  }

  lemma LongerAfter(t: Tag, more: string)
    ensures TagText(t) + more == TagText(t.(after := t.after + more))
  {
  }

  /** Text behind the last tag is part of that tag. */
  lemma TextBehind(tags: seq<Tag>, t: Tag, more: string)
    ensures Render(tags + [t]) + more == Render(tags + [t.(after := t.after + more)])
  {
    var longer := t.(after := t.after + more);
    RenderConcat(tags, [t]);
    RenderConcat(tags, [longer]);
    LongerAfter(t, more);
    hide TagText;
    assert Render([t]) == TagText(t) + "" && Render([longer]) == TagText(longer) + "";
    assert Render(tags) + TagText(t) + more == Render(tags) + (TagText(t) + more);
  }

  lemma MachineText(cfg: VMConfig)
    ensures Header(cfg) + "    " == Render(MachineTags(cfg))
  {
    var front := [DOMAIN_TAG, Open("name", cfg.name), NAME_CLOSE];
    var settings := SettingTags(cfg);
    var before := front + settings[..|settings| - 1];
    var devices := Open("devices", "\n");
    assert settings[|settings| - 1] == devices;
    assert front + settings == before + [devices];
    assert "\n" + "    " == "\n    ";
    assert before + [Open("devices", "\n    ")] == MachineTags(cfg);
    FrontText(cfg);
    hide TagText, Render, SettingTags, MachineTags, Header;
    RenderConcat(front, settings);
    TextBehind(before, devices, "    ");
  }

  lemma FrontText(cfg: VMConfig)
    ensures Header(cfg) == Render([DOMAIN_TAG, Open("name", cfg.name), NAME_CLOSE]) + Render(SettingTags(cfg))
  {
    var a, b, c := TagText(DOMAIN_TAG), TagText(Open("name", cfg.name)), TagText(NAME_CLOSE);
    var rest := Render(SettingTags(cfg));
    hide TagText, SettingTags;
    RenderStep(DOMAIN_TAG, [Open("name", cfg.name), NAME_CLOSE]);
    RenderStep(Open("name", cfg.name), [NAME_CLOSE]);
    RenderStep(NAME_CLOSE, []);
    assert [NAME_CLOSE] + [] == [NAME_CLOSE];
    assert [Open("name", cfg.name)] + [NAME_CLOSE] == [Open("name", cfg.name), NAME_CLOSE];
    assert [DOMAIN_TAG] + [Open("name", cfg.name), NAME_CLOSE] == [DOMAIN_TAG, Open("name", cfg.name), NAME_CLOSE];
    hide Render;
    assert c + "" == c;
    Reassociated(a, b, c, rest);
  }

  lemma Reassociated(a: string, b: string, c: string, d: string)
    ensures a + b + (c + d) == a + (b + c) + d
  {
  }

  // A disk fragment, tag by tag.

  lemma SourceTag(path: string)
    ensures TagText(Empty("source file='" + path + "'", "\n      ")) == SOURCE_OPEN + path + SOURCE_CLOSE
  {
    assert "<" + "source file='" == SOURCE_OPEN;
    assert "'" + ("/>" + "\n      ") == SOURCE_CLOSE;
    EmptyIs("source file='", path, "'", "\n      ");
  }

  lemma EmptyIs(front: string, value: string, back: string, after: string)
    ensures TagText(Empty(front + value + back, after)) == ("<" + front) + value + (back + ("/>" + after))
  {
  }

  lemma TargetTag(target: string)
    ensures TagText(Empty("target dev='" + target + "' bus='virtio'", "\n    "))
         == TARGET_OPEN + target + TARGET_CLOSE
  {
    assert "<" + "target dev='" == TARGET_OPEN;
    assert "' bus='virtio'" + ("/>" + "\n    ") == TARGET_CLOSE;
    EmptyIs("target dev='", target, "' bus='virtio'", "\n    ");
  }

  lemma CloseTag()
    ensures TagText(Close("disk", "\n    ")) == DISK_CLOSE + "\n    "
  {
    assert "<" + ("/" + "disk" + (">" + "\n    ")) == DISK_CLOSE + "\n    ";
  }

  lemma DiskText(d: DiskDevice)
    ensures DiskXml(d.path, d.target) + "\n    " == Render(DiskTags(d))
  {
    SourceTag(d.path);
    TargetTag(d.target);
    CloseTag();
    var source, target := DiskTags(d)[2], DiskTags(d)[3];
    assert DiskTags(d) == [DISK_TAG] + ([DRIVER_TAG] + ([source] + ([target] + [Close("disk", "\n    ")])));
    hide TagText, Render, DiskTags;
    RenderStep(DISK_TAG, [DRIVER_TAG] + ([source] + ([target] + [Close("disk", "\n    ")])));
    RenderStep(DRIVER_TAG, [source] + ([target] + [Close("disk", "\n    ")]));
    RenderStep(source, [target] + [Close("disk", "\n    ")]);
    RenderStep(target, [Close("disk", "\n    ")]);
    LastTag(Close("disk", "\n    "));
    PrefixParts();
    Sum(TagText(DISK_TAG), TagText(DRIVER_TAG), SOURCE_OPEN, d.path, SOURCE_CLOSE, TARGET_OPEN, d.target,
        TARGET_CLOSE, DISK_CLOSE, "\n    ");
  }

  lemma LastTag(t: Tag)
    ensures Render([t]) == TagText(t)
  {
    hide TagText;
    assert TagText(t) + "" == TagText(t);
  }

  lemma Sum(a: string, b: string, c: string, p: string, d: string, e: string, t: string, f: string, g: string,
            n: string)
    ensures a + b + c + p + (d + e + t + f + g) + n == a + (b + (c + p + d + (e + t + f + (g + n))))
  {
  }

  /** The extra disks from i on, with the blanks that follow them. */
  lemma {:induction false} ExtrasText(ds: seq<DiskDevice>, i: nat)
    requires i <= |ds|
    ensures ExtrasXml(ds, i) + "\n    " == "\n    " + Render(DisksTags(Listed(ds, i)))
    decreases |ds| - i
  {
    hide DiskXml, TargetOf, DiskTags;
    if i == |ds| {
      assert "" + "\n    " == "\n    " + "";
    } else {
      ExtrasText(ds, i + 1);
      ListedStep(ds, i);
      if ds[i].path != "" {
        var d, rest := DiskDevice(ds[i].path, TargetOf(ds[i], i)), Listed(ds, i + 1);
        DiskText(d);
        RenderConcat(DiskTags(d), DisksTags(rest));
        hide Render, Listed, DisksTags;
        Between("\n    ", DiskXml(d.path, d.target), ExtrasXml(ds, i + 1), Render(DisksTags(rest)));
      }
    }
  }

  lemma ListedStep(ds: seq<DiskDevice>, i: nat)
    requires i < |ds|
    ensures ds[i].path == "" ==> Listed(ds, i) == Listed(ds, i + 1)
    ensures ds[i].path != "" ==>
      DisksTags(Listed(ds, i)) == DiskTags(DiskDevice(ds[i].path, TargetOf(ds[i], i))) + DisksTags(Listed(ds, i + 1))
  {
    hide TargetOf, DiskTags;
    if ds[i].path != "" {
      assert Listed(ds, i)[1..] == Listed(ds, i + 1);
    }
  }

  lemma Between(n: string, d: string, more: string, rest: string)
    requires more + n == n + rest
    ensures n + d + more + n == n + (d + n + rest)
  {
    assert n + d + more + n == n + d + (more + n);
    assert n + d + (n + rest) == n + (d + n + rest);
  }

  lemma DisksText(cfg: VMConfig)
    ensures DiskXml(cfg.diskPath, "vda") + (ExtrasXml(cfg.extraDisks, 0) + "\n    ")
         == Render(DisksTags(ConfigDisks(cfg)))
  {
    var boot, rest := DiskDevice(cfg.diskPath, "vda"), Listed(cfg.extraDisks, 0);
    BootFirst(cfg);
    ExtrasText(cfg.extraDisks, 0);
    DiskText(boot);
    hide *;
    RenderConcat(DiskTags(boot), DisksTags(rest));
    Reassoc(DiskXml(boot.path, boot.target), "\n    ", Render(DisksTags(rest)));
  }

  lemma BootFirst(cfg: VMConfig)
    ensures DisksTags(ConfigDisks(cfg))
         == DiskTags(DiskDevice(cfg.diskPath, "vda")) + DisksTags(Listed(cfg.extraDisks, 0))
  {
    assert ConfigDisks(cfg)[1..] == Listed(cfg.extraDisks, 0);
    hide DiskTags, Listed;
  }

  lemma SameSources(n: NetworkConfig)
    ensures "source " + Quoted("bridge", n.source) == "source bridge=\"" + n.source + "\""
    ensures forall v :: "source " + Quoted("network", v) == "source network=\"" + v + "\""
  {
    assert "source " + "bridge" + "=\"" == "source bridge=\"";
    assert "source " + "network" + "=\"" == "source network=\"";
    forall v
      ensures "source " + Quoted("network", v) == "source network=\"" + v + "\""
    {
      assert "source " + ("network" + "=\"" + v + "\"") == ("source " + "network" + "=\"") + v + "\"";
    }
    assert "source " + ("bridge" + "=\"" + n.source + "\"") == ("source " + "bridge" + "=\"") + n.source + "\"";
  }

  lemma SameDirect(source: string, mode: string)
    ensures "source " + Quoted("dev", source) + " " + Quoted("mode", mode)
         == "source dev=\"" + source + "\" mode=\"" + mode + "\""
  {
    assert "source " + "dev" + "=\"" == "source dev=\"";
    assert "\"" + " " + "mode" + "=\"" == "\" mode=\"";
    assert "source " + ("dev" + "=\"" + source + "\"") + " " + ("mode" + "=\"" + mode + "\"")
        == ("source " + "dev" + "=\"") + source + ("\"" + " " + "mode" + "=\"") + mode + "\"";
  }

  lemma InterfaceText(n: NetworkConfig)
    ensures Render(NetworkTags(n)) + "\n    " == Render(InterfaceTags(n))
  {
    SameSources(n);
    SameDirect(n.source, if n.macvtapMode == "" then "bridge" else n.macvtapMode);
    var tags := NetworkTags(n);
    var front := tags[..3];
    assert tags == front + [Close("interface", "")];
    assert "" + "\n    " == "\n    ";
    assert front + [Close("interface", "\n    ")] == InterfaceTags(n);
    hide Render, NetworkTags, InterfaceTags;
    TextBehind(front, Close("interface", ""), "\n    ");
  }

  lemma FixedText()
    ensures DEVICE_TAGS == FixedTags() && Render(DEVICE_TAGS) == Render(FixedTags())
  {
    hide Render;
  }

  lemma Blanks()
    ensures "\n" + "    " == "\n    "
  {
  }

  lemma Assembled(xml: string, h: string, b: string, d: string, e: string, n: string, nic: string, nb: string,
                  rest: string, m: seq<Tag>, ds: seq<Tag>, ns: seq<Tag>, f: seq<Tag>)
    requires xml == h + (b + d + e) + (n + (b + nic) + nb + rest) && n + b == nb
    requires h + b == Render(m) && d + (e + nb) == Render(ds) && nic + nb == Render(ns) && rest == Render(f)
    ensures xml == Render(m + ds + ns + f)
  {
    hide Render;
    assert xml == (h + b) + (d + (e + (n + b))) + (nic + nb) + rest;
    RenderConcat(m, ds);
    RenderConcat(m + ds, ns);
    RenderConcat(m + ds + ns, f);
  }

  lemma Pieces(cfg: VMConfig)
    ensures DomainXml(cfg) ==
      Header(cfg) + ("    " + DiskXml(cfg.diskPath, "vda") + ExtrasXml(cfg.extraDisks, 0))
      + ("\n" + ("    " + Render(NetworkTags(cfg.network))) + "\n    " + Render(DEVICE_TAGS))
  {
    hide Header, DiskXml, ExtrasXml, Render, NetworkTags;
  }

  /** The printed text is exactly those tags. */
  lemma DescriptionText(cfg: VMConfig)
    ensures DomainXml(cfg) == Render(Described(cfg))
  {
    MachineText(cfg);
    DisksText(cfg);
    InterfaceText(cfg.network);
    FixedText();
    Pieces(cfg);
    Blanks();
    hide *;
    Assembled(DomainXml(cfg), Header(cfg), "    ", DiskXml(cfg.diskPath, "vda"), ExtrasXml(cfg.extraDisks, 0), "\n",
              Render(NetworkTags(cfg.network)), "\n    ", Render(DEVICE_TAGS), MachineTags(cfg),
              DisksTags(ConfigDisks(cfg)), InterfaceTags(cfg.network), FixedTags());
    Parts(cfg);
  }

  lemma Parts(cfg: VMConfig)
    ensures Described(cfg)
         == MachineTags(cfg) + DisksTags(ConfigDisks(cfg)) + InterfaceTags(cfg.network) + FixedTags()
  {
  }

  // ---------------------------------------------------------------- and the reader reads them

  /** No attribute's value closes its tag, and the name opens none. */
  predicate TagsStay(cfg: VMConfig) {
    && NoChar(cfg.name, '<') && NoChar(cfg.diskPath, '>')
    && (forall i :: 0 <= i < |cfg.extraDisks| ==>
         NoChar(cfg.extraDisks[i].path, '>') && NoChar(cfg.extraDisks[i].target, '>'))
    && NoChar(cfg.network.source, '>') && NoChar(cfg.network.macvtapMode, '>')
  }

  lemma ReadableConcat(a: seq<Tag>, b: seq<Tag>)
    requires AllReadable(a) && AllReadable(b)
    ensures AllReadable(a + b)
  {
    hide Readable;
  }

  lemma PlainIsReadable(t: Tag)
    requires PlainTag(t)
    ensures Readable(t)
  {
    assert forall i :: 0 <= i < |t.body| ==> PlainChar(t.body[i]);
    assert forall i :: 0 <= i < |t.after| ==> PlainChar(t.after[i]);
  }

  lemma AllPlainReadable(tags: seq<Tag>)
    requires AllPlain(tags)
    ensures AllReadable(tags)
  {
    hide PlainTag, Readable;
    forall i | 0 <= i < |tags|
      ensures Readable(tags[i])
    {
      PlainIsReadable(tags[i]);
    }
  }

  lemma SettingsReadable(cfg: VMConfig)
    ensures AllReadable(SettingTags(cfg))
  {
    SizingPlain(cfg);
    OsPlain();
    FeaturePlain();
    hide PlainTag, SizingTags;
    AllPlainReadable(SettingTags(cfg));
  }

  lemma NameReadable(cfg: VMConfig)
    requires NoChar(cfg.name, '<')
    ensures AllReadable([DOMAIN_TAG, Open("name", cfg.name), NAME_CLOSE])
  {
    NameTags(cfg);
    PlainIsReadable(DOMAIN_TAG);
    PlainIsReadable(NAME_CLOSE);
    assert NoChar("name", '>') && "name"[0] != '/' && "name"[3] != '/';
    assert Readable(Open("name", cfg.name));
    hide Readable;
  }

  lemma MachineReadable(cfg: VMConfig)
    requires NoChar(cfg.name, '<')
    ensures AllReadable(MachineTags(cfg))
  {
    var front, settings := [DOMAIN_TAG, Open("name", cfg.name), NAME_CLOSE], SettingTags(cfg);
    assert MachineTags(cfg) == front + settings[..|settings| - 1] + [Open("devices", "\n    ")];
    LastReadable();
    NameReadable(cfg);
    SettingsReadable(cfg);
    hide Readable, MachineTags, SettingTags;
  }

  lemma LastReadable()
    ensures Readable(Open("devices", "\n    "))
  {
  }

  lemma ClosingReadable0()
    ensures Readable(CLOSING_TAGS[0]) && Readable(CLOSING_TAGS[1])
  {
  }

  lemma ClosingReadable1()
    ensures Readable(CLOSING_TAGS[2])
  {
  }

  lemma ClosingReadable2()
    ensures Readable(CLOSING_TAGS[3]) && Readable(CLOSING_TAGS[4])
  {
  }

  lemma ClosingReadable3()
    ensures Readable(CLOSING_TAGS[5]) && Readable(CLOSING_TAGS[6])
  {
  }

  lemma FixedReadable()
    ensures AllReadable(FixedTags())
  {
    SerialPlain();
    ConsolePlain();
    GraphicsPlain();
    VideoPlain();
    ChannelPlain();
    ClosingReadable0();
    ClosingReadable1();
    ClosingReadable2();
    ClosingReadable3();
    FixedText();
    hide PlainTag, Readable, FixedTags, Render;
    assert AllReadable(CLOSING_TAGS);
    AllPlainReadable(SERIAL_TAGS);
    AllPlainReadable(CONSOLE_TAGS);
    AllPlainReadable(GRAPHICS_TAGS);
    AllPlainReadable(VIDEO_TAGS);
    AllPlainReadable(CHANNEL_TAGS);
    hide AllReadable, AllPlain;
    SixReadable(SERIAL_TAGS, CONSOLE_TAGS, GRAPHICS_TAGS, VIDEO_TAGS, CHANNEL_TAGS, CLOSING_TAGS);
    assert DEVICE_TAGS == SERIAL_TAGS + CONSOLE_TAGS + GRAPHICS_TAGS + VIDEO_TAGS + CHANNEL_TAGS + CLOSING_TAGS;
  }

  lemma SixReadable(a: seq<Tag>, b: seq<Tag>, c: seq<Tag>, d: seq<Tag>, e: seq<Tag>, f: seq<Tag>)
    requires AllReadable(a) && AllReadable(b) && AllReadable(c) && AllReadable(d) && AllReadable(e) && AllReadable(f)
    ensures AllReadable(a + b + c + d + e + f)
  {
    hide *;
    ReadableConcat(a, b);
    ReadableConcat(a + b, c);
    ReadableConcat(a + b + c, d);
    ReadableConcat(a + b + c + d, e);
    ReadableConcat(a + b + c + d + e, f);
  }

  lemma ValueReadable(front: string, value: string, back: string, after: string)
    requires NoChar(front, '>') && NoChar(value, '>') && NoChar(back, '>') && NoChar(after, '<')
    requires front != "" && front[0] != '/'
    ensures Readable(Empty(front + value + back, after))
  {
  }

  lemma DiskReadable(d: DiskDevice)
    requires NoChar(d.path, '>') && NoChar(d.target, '>')
    ensures AllReadable(DiskTags(d))
  {
    FragmentReadable();
    ValueReadable("source file='", d.path, "'", "\n      ");
    ValueReadable("target dev='", d.target, "' bus='virtio'", "\n    ");
    hide Readable;
  }

  lemma FragmentReadable()
    ensures Readable(Open("disk type='file' device='disk'", "\n      ")) && Readable(Close("disk", "\n    "))
    ensures Readable(Empty("driver name='qemu' type='qcow2'", "\n      "))
  {
  }

  lemma {:induction false} DisksReadable(ds: seq<DiskDevice>)
    requires forall d :: d in ds ==> NoChar(d.path, '>') && NoChar(d.target, '>')
    ensures AllReadable(DisksTags(ds))
  {
    if ds != [] {
      hide NoChar, DiskTags, AllReadable;
      DiskReadable(ds[0]);
      DisksReadable(ds[1..]);
      ReadableConcat(DiskTags(ds[0]), DisksTags(ds[1..]));
    } else {
      hide Readable;
    }
  }

  lemma {:induction false} ListedStays(ds: seq<DiskDevice>, i: nat)
    requires i <= |ds|
    requires forall k :: 0 <= k < |ds| ==> NoChar(ds[k].path, '>') && NoChar(ds[k].target, '>')
    ensures forall d :: d in Listed(ds, i) ==> NoChar(d.path, '>') && NoChar(d.target, '>')
    decreases |ds| - i
  {
    if i < |ds| {
      ListedStays(ds, i + 1);
      assert NoChar(TargetOf(ds[i], i), '>');
    }
  }

  lemma ConfigStays(cfg: VMConfig)
    requires TagsStay(cfg)
    ensures forall d :: d in ConfigDisks(cfg) ==> NoChar(d.path, '>') && NoChar(d.target, '>')
  {
    VdaStays();
    ListedStays(cfg.extraDisks, 0);
    hide Listed, NoChar;
  }

  lemma InterfaceFixed()
    ensures Readable(Open("interface type=\"network\"", "\n      "))
    ensures Readable(Open("interface type=\"bridge\"", "\n      "))
    ensures Readable(Open("interface type=\"direct\"", "\n      "))
  {
  }

  lemma ModelFixed()
    ensures Readable(Empty("model type=\"virtio\"", "\n    ")) && Readable(Close("interface", "\n    "))
  {
  }

  lemma InterfaceReadable(n: NetworkConfig)
    requires NoChar(n.source, '>') && NoChar(n.macvtapMode, '>')
    ensures AllReadable(InterfaceTags(n))
  {
    var source := if n.kind == Nat && n.source == "" then "default" else n.source;
    var mode := if n.macvtapMode == "" then "bridge" else n.macvtapMode;
    assert NoChar("default", '>') && NoChar("bridge", '>');
    InterfaceFixed();
    ModelFixed();
    SourcesReadable(source, mode);
    hide Readable, NoChar;
  }

  lemma SourcesReadable(source: string, mode: string)
    requires NoChar(source, '>') && NoChar(mode, '>')
    ensures Readable(Empty("source network=\"" + source + "\"", "\n      "))
    ensures Readable(Empty("source bridge=\"" + source + "\"", "\n      "))
    ensures Readable(Empty("source dev=\"" + source + "\" mode=\"" + mode + "\"", "\n      "))
  {
    ValueReadable("source network=\"", source, "\"", "\n      ");
    ValueReadable("source bridge=\"", source, "\"", "\n      ");
    assert NoChar("source dev=\"" + source + "\" mode=\"", '>');
    ValueReadable("source dev=\"" + source + "\" mode=\"", mode, "\"", "\n      ");
    hide Readable;
  }

  /**
    Reading undoes printing, for the whole description: of every VM none of whose attributes
    holds a closing bracket, a tag reader gets back exactly the machine, the disks in order, the
    interface and the fixed devices, with all their attributes.
   */
  lemma ReaderUndoesPrinter(cfg: VMConfig)
    requires TagsStay(cfg)
    ensures ReadTags(DomainXml(cfg)) == Described(cfg)
  {
    ConfigStays(cfg);
    hide DomainXml, ReadTags, Render, MachineTags, DisksTags, ConfigDisks, InterfaceTags, FixedTags, Described, NoChar;
    hide AllReadable;
    DescriptionText(cfg);
    MachineReadable(cfg);
    DisksReadable(ConfigDisks(cfg));
    InterfaceReadable(cfg.network);
    FixedReadable();
    Parts(cfg);
    hide *;
    ReadsParts(MachineTags(cfg), DisksTags(ConfigDisks(cfg)), InterfaceTags(cfg.network), FixedTags());
  }

  lemma ReadsParts(a: seq<Tag>, b: seq<Tag>, c: seq<Tag>, d: seq<Tag>)
    requires AllReadable(a) && AllReadable(b) && AllReadable(c) && AllReadable(d)
    ensures ReadTags(Render(a + b + c + d)) == a + b + c + d
  {
    hide *;
    ReadableConcat(a, b);
    ReadableConcat(a + b, c);
    ReadableConcat(a + b + c, d);
    ReaderUndoesRenderer(a + b + c + d);
  }

  lemma VdaStays()
    ensures NoChar("vda", '>')
  {
  }

  /** After a disk has been attached, the same with that disk behind the others. */
  lemma ReaderUndoesAttaching(cfg: VMConfig, d: DiskDevice)
    requires TagsStay(cfg) && NoChar(d.path, '>') && NoChar(d.target, '>') && d.path != "" && d.target != ""
    requires NoChar(cfg.network.source, '<') && NoChar(cfg.network.macvtapMode, '<')
    ensures ReadTags(Splice(DomainXml(cfg), DiskXml(d.path, d.target))) ==
      MachineTags(cfg) + DisksTags(ConfigDisks(cfg) + [d]) + InterfaceTags(cfg.network) + FixedTags()
  {
    var more := cfg.(extraDisks := cfg.extraDisks + [d]);
    MoreStays(cfg, d);
    hide TagsStay, ReadTags, DomainXml, Splice, DiskXml, DisksTags, ConfigDisks, NoChar;
    AttachAppends(cfg, d);
    ReaderUndoesPrinter(more);
    Parts(more);
    SameMachine(cfg, d);
    hide MachineTags, InterfaceTags, FixedTags, Described;
  }

  lemma MoreStays(cfg: VMConfig, d: DiskDevice)
    requires TagsStay(cfg) && NoChar(d.path, '>') && NoChar(d.target, '>')
    ensures TagsStay(cfg.(extraDisks := cfg.extraDisks + [d]))
  {
    hide NoChar;
  }

  lemma SameMachine(cfg: VMConfig, d: DiskDevice)
    ensures MachineTags(cfg.(extraDisks := cfg.extraDisks + [d])) == MachineTags(cfg)
  {
  }

  /** An extra disk without a target is given the letter of its position, counting from b. */
  lemma TargetsFilledIn(ds: seq<DiskDevice>, i: nat)
    requires i < |ds| <= 25 && ds[i].path != ""
    ensures Listed(ds, i) == [DiskDevice(
      ds[i].path, if ds[i].target == "" then "vd" + [('b' as int + i) as char] else ds[i].target)] + Listed(ds, i + 1)
  {
  }
}
