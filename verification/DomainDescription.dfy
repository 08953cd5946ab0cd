/**
  The domain description that vmtool prints for libvirt (pkg/vmtool/libvirt.go, network.go)
  and the string search it reads disks back with.  The printer does not escape, and the
  parser is not an XML parser, so everything here is about plain text.
 */
module DomainDescription {
  import opened Text
  import opened Outcomes

  datatype DiskDevice = DiskDevice(path: string, target: string)

  datatype NetworkType = Nat | Bridge | Direct

  datatype NetworkConfig = NetworkConfig(kind: NetworkType, source: string, macvtapMode: string)

  /** VMConfig without the guest credentials. */
  datatype VMConfig = VMConfig(
    name: string,
    vcpus: u64,
    memory: u64,
    diskPath: string,
    diskSizeGB: u64,
    pool: string,
    network: NetworkConfig,
    noclone: bool,
    extraDiskSizeGB: u64,
    extraDiskPool: string,
    extraDisks: seq<DiskDevice>)

  // ---------------------------------------------------------------- printing

  /**
    The templates are cut before every `<`: a piece is one tag and the text up to the next one.
    Empty stands for a self-closing tag.
   */
  datatype Tag =
    | Open(body: string, after: string)
    | Close(body: string, after: string)
    | Empty(body: string, after: string)

  function TagRest(t: Tag): string {
    match t
    case Open(body, after) => body + (">" + after)
    case Close(body, after) => "/" + body + (">" + after)
    case Empty(body, after) => body + ("/>" + after)
  }

  function TagText(t: Tag): string {
    "<" + TagRest(t)
  }

  function Render(tags: seq<Tag>): string {
    if tags == [] then "" else TagText(tags[0]) + Render(tags[1..])
  }

  const DISK_TAG := Open("disk type='file' device='disk'", "\n      ")
  const DRIVER_TAG := Empty("driver name='qemu' type='qcow2'", "\n      ")
  const SOURCE_OPEN := "<source file='"
  const SOURCE_CLOSE := "'/>\n      "
  const TARGET_OPEN := "<target dev='"
  const TARGET_CLOSE := "' bus='virtio'/>\n    "
  const DISK_CLOSE := "</disk>"

  /** Everything of a disk fragment that precedes the path. */
  const DISK_PREFIX := TagText(DISK_TAG) + TagText(DRIVER_TAG) + SOURCE_OPEN

  /** diskXML. */
  function DiskXml(path: string, target: string): string {
    DISK_PREFIX + path + (SOURCE_CLOSE + TARGET_OPEN + target + TARGET_CLOSE + DISK_CLOSE)
  }

  /** fmt's %c applied to 'b'+i: a value that is no Unicode scalar prints U+FFFD. */
  function LetterFromB(i: nat): char {
    var r := 'b' as int + i;
    if r < 0xD800 || 0xE000 <= r < 0x11_0000 then r as char else '\U{FFFD}'
  }

  function TargetOf(d: DiskDevice, i: nat): string {
    if d.target == "" then "vd" + [LetterFromB(i)] else d.target
  }

  function ExtrasXml(ds: seq<DiskDevice>, i: nat): string
    requires i <= |ds|
    decreases |ds| - i
  {
    if i == |ds| then ""
    else if ds[i].path == "" then ExtrasXml(ds, i + 1)
    else "\n    " + DiskXml(ds[i].path, TargetOf(ds[i], i)) + ExtrasXml(ds, i + 1)
  }

  function DisksXml(cfg: VMConfig): string {
    "    " + DiskXml(cfg.diskPath, "vda") + ExtrasXml(cfg.extraDisks, 0)
  }

  /** disksXML as written: a builder filled in a loop. */
  method BuildDisksXml(cfg: VMConfig) returns (b: string)
    ensures b == DisksXml(cfg)
  {
    hide DiskXml;
    b := "    ";
    b := b + DiskXml(cfg.diskPath, "vda");
    for i := 0 to |cfg.extraDisks|
      invariant b + ExtrasXml(cfg.extraDisks, i) == DisksXml(cfg)
    {
      var d := cfg.extraDisks[i];
      ghost var before := b;
      if d.path == "" {
        continue;
      }
      var target := d.target;
      if target == "" {
        target := "vd" + [LetterFromB(i)];
      }
      b := b + "\n    ";
      b := b + DiskXml(d.path, target);
      assert b + ExtrasXml(cfg.extraDisks, i + 1) == before + ExtrasXml(cfg.extraDisks, i);
    }
    assert b + "" == b;
  }

  function Quoted(attr: string, value: string): string {
    attr + "=\"" + value + "\""
  }

  const NIC_MODEL := [Empty("model type=\"virtio\"", "\n    "), Close("interface", "")]

  function NetworkTags(n: NetworkConfig): seq<Tag> {
    match n.kind
    case Bridge =>
      [Open("interface type=\"bridge\"", "\n      "),
       Empty("source " + Quoted("bridge", n.source), "\n      ")] + NIC_MODEL
    case Direct =>
      var mode := if n.macvtapMode == "" then "bridge" else n.macvtapMode;
      [Open("interface type=\"direct\"", "\n      "),
       Empty("source " + Quoted("dev", n.source) + " " + Quoted("mode", mode), "\n      ")] + NIC_MODEL
    case Nat =>
      var source := if n.source == "" then "default" else n.source;
      [Open("interface type=\"network\"", "\n      "),
       Empty("source " + Quoted("network", source), "\n      ")] + NIC_MODEL
  }

  /** networkXML. */
  function NetworkXml(n: NetworkConfig): string {
    "    " + Render(NetworkTags(n))
  }

  function SizingTags(cfg: VMConfig): seq<Tag> {
    [Open("memory unit='GiB'", Dec(cfg.memory)), Close("memory", "\n  "),
     Open("vcpu", Dec(cfg.vcpus)), Close("vcpu", "\n  ")]
  }

  const OS_TAGS := [
    Open("os", "\n    "),
    Open("type arch='x86_64' machine='q35'", "hvm"), Close("type", "\n    "),
    Empty("boot dev='hd'", "\n  "), Close("os", "\n  ")]

  const FEATURE_TAGS := [
    Open("features", "\n    "), Empty("acpi", "\n    "), Empty("apic", "\n  "), Close("features", "\n  "),
    Empty("cpu mode='host-passthrough' check='none'", "\n  "),
    Open("devices", "\n")]

  const SERIAL_TAGS := [
    Open("serial type='pty'", "\n      "), Empty("target port='0'", "\n    "), Close("serial", "\n    ")]

  const CONSOLE_TAGS := [
    Open("console type='pty'", "\n      "), Empty("target type='serial' port='0'", "\n    "),
    Close("console", "\n    ")]

  const GRAPHICS_ATTRS := "graphics type='vnc' " + "port='-1' autoport='yes'"
  const LISTEN_ATTRS := "listen type='address' " + "address='127.0.0.1'"
  const MODEL_ATTRS := "model type='qxl' ram='65536' " + "vram='65536' vgamem='16384' " + "heads='1' primary='yes'"

  const GRAPHICS_TAGS := [
    Open(GRAPHICS_ATTRS, "\n      "),
    Empty(LISTEN_ATTRS, "\n    "),
    Close("graphics", "\n    ")]

  const VIDEO_TAGS := [
    Open("video", "\n      "),
    Empty(MODEL_ATTRS, "\n    "),
    Close("video", "\n    ")]

  const CHANNEL_TAGS := [
    Open("channel type='unix'", "\n      "),
    Empty("target type='virtio' " + "name='org.qemu.guest_agent.0'", "\n    "),
    Close("channel", "\n    ")]

  const CLOSING_TAGS := [
    Empty("memballoon model='virtio'", "\n    "),
    Open("rng model='virtio'", "\n      "),
    Open("backend model='random'", "/dev/urandom"), Close("backend", "\n    "), Close("rng", "\n  "),
    Close("devices", "\n"), Close("domain", "")]

  const DEVICE_TAGS := SERIAL_TAGS + CONSOLE_TAGS + GRAPHICS_TAGS + VIDEO_TAGS + CHANNEL_TAGS + CLOSING_TAGS

  const DOMAIN_TAG := Open("domain type='kvm'", "\n  ")
  const NAME_CLOSE := Close("name", "\n  ")

  function SettingTags(cfg: VMConfig): seq<Tag> {
    SizingTags(cfg) + OS_TAGS + FEATURE_TAGS
  }

  function Header(cfg: VMConfig): string {
    TagText(DOMAIN_TAG) + TagText(Open("name", cfg.name)) + (TagText(NAME_CLOSE) + Render(SettingTags(cfg)))
  }

  function Trailer(cfg: VMConfig): string {
    "\n" + NetworkXml(cfg.network) + "\n    " + Render(DEVICE_TAGS)
  }

  /** domainXML. */
  function DomainXml(cfg: VMConfig): string {
    Header(cfg) + DisksXml(cfg) + Trailer(cfg)
  }

  // ---------------------------------------------------------------- parsing

  /** A tag without its closing bracket, or all the text if there is none. */
  function TagIn(open: string): string {
    var gt := Index(open, ">");
    if gt == -1 then open else open[..gt]
  }

  function AttrIn(tag: string, attr: string): string {
    var marker := attr + "='";
    var si := Index(tag, marker);
    if si == -1 then "" else
    var rest := tag[si + |marker|..];
    var ei := Index(rest, "'");
    if ei == -1 then "" else rest[..ei]
  }

  /** xmlAttr: the value of attr='…' in the first tag that starts with tagPrefix. */
  function XmlAttr(block: string, tagPrefix: string, attr: string): string {
    var ti := Index(block, tagPrefix);
    if ti == -1 then "" else AttrIn(TagIn(block[ti..]), attr)
  }

  /** What one <disk> block contributes to the list. */
  function BlockDisks(block: string): seq<DiskDevice> {
    var path := XmlAttr(block, "<source", "file");
    var target := XmlAttr(block, "<target", "dev");
    if path == "" || target == "" then [] else [DiskDevice(path, target)]
  }

  /** parseFileDisks, as a function of the text. */
  function FileDisks(xml: string): seq<DiskDevice>
    decreases |xml|
  {
    var start := Index(xml, "<disk");
    if start == -1 then [] else
    var rest := xml[start..];
    var end := Index(rest, "</disk>");
    if end == -1 then [] else
    BlockDisks(rest[..end + |"</disk>"|]) + FileDisks(rest[end + |"</disk>"|..])
  }

  /** One turn of the cursor. */
  lemma FileDisksStep(xml: string)
    ensures var start := Index(xml, "<disk");
      if start == -1 then FileDisks(xml) == [] else
      var end := Index(xml[start..], "</disk>");
      if end == -1 then FileDisks(xml) == [] else
      FileDisks(xml) == BlockDisks(xml[start..][..end + |"</disk>"|]) + FileDisks(xml[start..][end + |"</disk>"|..])
  {
    hide BlockDisks, Index;
  }

  /** parseFileDisks as written: a cursor moved through the text. */
  method ParseFileDisks(xml: string) returns (out: seq<DiskDevice>)
    ensures out == FileDisks(xml)
  {
    hide XmlAttr, Index, FileDisks;
    out := [];
    var rest := xml;
    while true
      invariant out + FileDisks(rest) == FileDisks(xml)
      decreases |rest|
    {
      FileDisksStep(rest);
      var start := Index(rest, "<disk");
      if start == -1 {
        break;
      }
      rest := rest[start..];
      var end := Index(rest, "</disk>");
      if end == -1 {
        break;
      }
      var block := rest[..end + |"</disk>"|];
      rest := rest[end + |"</disk>"|..];
      var path := XmlAttr(block, "<source", "file");
      var target := XmlAttr(block, "<target", "dev");
      if path == "" || target == "" {
        continue;
      }
      out := out + [DiskDevice(path, target)];
    }
  }

  /** parseDiskSourcePath: the first disk's path, empty when there is none. */
  function SourcePath(xml: string): string {
    var disks := FileDisks(xml);
    if disks == [] then "" else disks[0].path
  }

  /** What libvirt reads between the first such tag and the next closing one. */
  function Element(xml: string, open: string, close: string): string {
    var si := Index(xml, open);
    if si == -1 then "" else
    var rest := xml[si + |open|..];
    var ei := Index(rest, close);
    if ei == -1 then "" else rest[..ei]
  }

  const MEMORY_OPEN := "<memory unit='GiB'>"
  const VCPU_OPEN := "<vcpu>"

  function NameOf(xml: string): string {
    Element(xml, "<name>", "</name>")
  }

  function MemoryOf(xml: string): string {
    Element(xml, MEMORY_OPEN, "</memory>")
  }

  function VcpusOf(xml: string): string {
    Element(xml, VCPU_OPEN, "</vcpu>")
  }

  /** A double-quoted value behind the first such marker, and the text behind it. */
  function ReadQuoted(text: string, marker: string): (string, string) {
    var i := Index(text, marker);
    if i == -1 then ("", "") else
    var rest := text[i + |marker|..];
    var j := Index(rest, "\"");
    if j == -1 then ("", rest) else (rest[..j], rest[j + 1..])
  }

  const NIC_OPEN := "<interface type=\""

  /** How libvirt reads the network interface: its type, its source under the attribute for that type, its mode. */
  function NetworkOf(xml: string): (string, string, string) {
    var (kind, behind) := ReadQuoted(xml, NIC_OPEN);
    var (source, last) := ReadQuoted(behind, "<source " + SourceAttr(kind) + "=\"");
    (kind, source, if kind == "direct" then ReadQuoted(last, " mode=\"").0 else "")
  }

  function SourceAttr(kind: string): string {
    if kind == "bridge" then "bridge" else if kind == "direct" then "dev" else "network"
  }

  /** How libvirt records an attached disk: the fragment goes in after the last disk. */
  function Splice(xml: string, fragment: string): string {
    var k := LastIndex(xml, "</disk>");
    if k == -1 then xml
    else xml[..k + |"</disk>"|] + "\n    " + fragment + xml[k + |"</disk>"|..]
  }
}
