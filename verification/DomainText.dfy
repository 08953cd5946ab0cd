/**
  The string-search parser is the inverse of the unescaped printer, attaching a fragment
  appends one disk, and MigrateDisk's one-shot text replacement edits the first disk only.

  Both searches are tamed by two properties that concatenation preserves: `Quiet` text can
  neither open nor close a disk, and in `Fenced` text every slash is followed by a character
  no path holds before the next slash.
 */
module DomainText {
  import opened Text
  import opened DomainDescription

  predicate Stop(c: char) {
    c == '<' || c == '>' || c == '\''
  }

  /** Text that may stand between the quotes of an attribute. */
  predicate CleanText(s: string) {
    forall i :: 0 <= i < |s| ==> !Stop(s[i])
  }

  predicate NoChar(s: string, c: char) {
    forall i :: 0 <= i < |s| ==> s[i] != c
  }

  predicate PlainChar(c: char) {
    c != '<' && c != '/'
  }

  predicate Plain(s: string) {
    forall i :: 0 <= i < |s| ==> PlainChar(s[i])
  }

  /** A `<` here starts neither "<di…" nor "</di…", and is not cut off by the end of the text. */
  predicate Quiet(s: string) {
    forall i :: 0 <= i < |s| && s[i] == '<' ==>
      && i + 3 < |s|
      && !(s[i + 1] == 'd' && s[i + 2] == 'i')
      && !(s[i + 1] == '/' && s[i + 2] == 'd' && s[i + 3] == 'i')
  }

  /** The first stop character at `j` fences off a slash at `i`. */
  predicate FencedAt(s: string, i: int, j: int) {
    0 <= i < j < |s| && Stop(s[j]) && NoChar(s[i + 1..j], '/')
  }

  ghost predicate Fenced(s: string) {
    forall i :: 0 <= i < |s| && s[i] == '/' ==> exists j :: FencedAt(s, i, j)
  }

  predicate CleanDisk(d: DiskDevice) {
    CleanText(d.path) && CleanText(d.target)
  }

  /** What the unescaped printer needs of its inputs. */
  predicate CleanConfig(cfg: VMConfig) {
    && NoChar(cfg.name, '<')
    && cfg.diskPath != "" && CleanText(cfg.diskPath)
    && (forall i :: 0 <= i < |cfg.extraDisks| ==> CleanDisk(cfg.extraDisks[i]))
    && NoChar(cfg.network.source, '<') && NoChar(cfg.network.macvtapMode, '<')
  }

  /** The disks a configuration stands for, from extra disk `i` on. */
  function Listed(ds: seq<DiskDevice>, i: nat): seq<DiskDevice>
    requires i <= |ds|
    decreases |ds| - i
  {
    if i == |ds| then []
    else (if ds[i].path == "" then [] else [DiskDevice(ds[i].path, TargetOf(ds[i], i))]) + Listed(ds, i + 1)
  }

  function ConfigDisks(cfg: VMConfig): seq<DiskDevice> {
    [DiskDevice(cfg.diskPath, "vda")] + Listed(cfg.extraDisks, 0)
  }

  /** No field can open a tag. */
  predicate TaglessConfig(cfg: VMConfig) {
    && NoChar(cfg.name, '<') && NoChar(cfg.diskPath, '<')
    && (forall i :: 0 <= i < |cfg.extraDisks| ==> TaglessDisk(cfg.extraDisks[i]))
    && NoChar(cfg.network.source, '<') && NoChar(cfg.network.macvtapMode, '<')
  }

  predicate TaglessDisk(d: DiskDevice) {
    NoChar(d.path, '<') && NoChar(d.target, '<')
  }

  /** A quote comes before any closing bracket. */
  predicate QuoteFirst(v: string) {
    var quote, bracket := Index(v, "'"), Index(v, ">");
    quote != -1 && (bracket == -1 || quote < bracket)
  }

  /** A closing bracket comes before any quote. */
  predicate BracketFirst(v: string) {
    var quote, bracket := Index(v, "'"), Index(v, ">");
    bracket != -1 && (quote == -1 || bracket < quote)
  }

  function BeforeQuote(v: string): string
    requires QuoteFirst(v)
  {
    v[..Index(v, "'")]
  }

  /**
    What is read back of a value printed between single quotes: everything before the first
    quote in it, or nothing when a closing bracket comes earlier.
   */
  function AsRead(v: string): string {
    if BracketFirst(v) then "" else if QuoteFirst(v) then BeforeQuote(v) else v
  }

  /** What is read back of one printed disk: nothing at all when one field is lost. */
  function ReadDisk(path: string, target: string): seq<DiskDevice> {
    if AsRead(path) == "" || AsRead(target) == "" then [] else [DiskDevice(AsRead(path), AsRead(target))]
  }

  function ReadListed(ds: seq<DiskDevice>, i: nat): seq<DiskDevice>
    requires i <= |ds|
    decreases |ds| - i
  {
    if i == |ds| then []
    else (if ds[i].path == "" then [] else ReadDisk(ds[i].path, TargetOf(ds[i], i))) + ReadListed(ds, i + 1)
  }

  /** What is read back of the disks of a configuration, whatever quotes and closing brackets they hold. */
  function ReadBack(cfg: VMConfig): seq<DiskDevice> {
    ReadDisk(cfg.diskPath, "vda") + ReadListed(cfg.extraDisks, 0)
  }

  // ------------------------------------------------- composing Quiet and Fenced

  lemma QuietConcat(a: string, b: string)
    requires Quiet(a) && Quiet(b)
    ensures Quiet(a + b)
  {
  }

  lemma FencedConcat(a: string, b: string)
    requires Fenced(a) && Fenced(b)
    ensures Fenced(a + b)
  {
    var s := a + b;
    forall i | 0 <= i < |s| && s[i] == '/'
      ensures exists j :: FencedAt(s, i, j)
    {
      if i < |a| {
        var j :| FencedAt(a, i, j);
        assert s[i + 1..j] == a[i + 1..j];
        assert FencedAt(s, i, j);
      } else {
        var j :| FencedAt(b, i - |a|, j);
        assert s[i + 1..j + |a|] == b[i - |a| + 1..j];
        assert FencedAt(s, i, j + |a|);
      }
    }
  }

  /** A tag of the template that has nothing to do with disks. */
  predicate QuietTag(t: Tag) {
    && NoChar(t.body, '<') && NoChar(t.after, '<')
    && |t.body| >= 2 && !(t.body[0] == 'd' && t.body[1] == 'i')
    && !(t.body[0] == '/')
  }

  /** A tag whose only slash and only closing bracket are its own. */
  predicate PlainTag(t: Tag) {
    && Plain(t.body) && NoChar(t.body, '>') && Plain(t.after)
    && |t.body| >= 2 && !(t.body[0] == 'd' && t.body[1] == 'i')
  }

  predicate AllQuiet(tags: seq<Tag>) {
    forall i :: 0 <= i < |tags| ==> QuietTag(tags[i])
  }

  predicate AllPlain(tags: seq<Tag>) {
    forall i :: 0 <= i < |tags| ==> PlainTag(tags[i])
  }

  lemma PlainIsQuiet(t: Tag)
    requires PlainTag(t)
    ensures QuietTag(t)
  {
    assert forall i :: 0 <= i < |t.body| ==> PlainChar(t.body[i]);
    assert forall i :: 0 <= i < |t.after| ==> PlainChar(t.after[i]);
  }

  /** A tag's text holds no `<` but its own. */
  lemma TagRestText(t: Tag)
    requires NoChar(t.body, '<') && NoChar(t.after, '<')
    ensures NoChar(TagRest(t), '<')
  {
  }

  lemma TagIsQuiet(t: Tag)
    requires QuietTag(t)
    ensures Quiet(TagText(t))
  {
    TagRestText(t);
    var rest := TagRest(t);
    var k := if t.Close? then 1 else 0;
    assert |rest| >= 3 && rest[k] == t.body[0] && rest[k + 1] == t.body[1];
    hide TagRest;
  }

  lemma TagIsFenced(t: Tag)
    requires Plain(t.body) && Plain(t.after)
    ensures Fenced(TagText(t))
  {
    assert forall m :: 0 <= m < |t.body| ==> PlainChar(t.body[m]);
    assert forall m :: 0 <= m < |t.after| ==> PlainChar(t.after[m]);
    var s := TagText(t);
    var i := if t.Open? then 0 else if t.Close? then 1 else |t.body| + 1;
    var j := if t.Open? then |t.body| + 1 else |t.body| + 2;
    assert Stop(s[j]);
    forall k | 0 <= k < |s| && s[k] == '/'
      ensures k == i
    {
    }
    if !t.Open? {
      assert FencedAt(s, i, j);
    }
  }

  lemma {:induction false} QuietRender(tags: seq<Tag>)
    requires AllQuiet(tags)
    ensures Quiet(Render(tags))
  {
    if tags != [] {
      TagIsQuiet(tags[0]);
      QuietRender(tags[1..]);
      QuietConcat(TagText(tags[0]), Render(tags[1..]));
    }
  }

  lemma {:induction false} PlainRender(tags: seq<Tag>)
    requires AllPlain(tags)
    ensures Quiet(Render(tags)) && Fenced(Render(tags))
  {
    if tags != [] {
      PlainIsQuiet(tags[0]);
      TagIsQuiet(tags[0]);
      TagIsFenced(tags[0]);
      PlainRender(tags[1..]);
      QuietConcat(TagText(tags[0]), Render(tags[1..]));
      FencedConcat(TagText(tags[0]), Render(tags[1..]));
    }
  }

  lemma AllPlainQuiet(tags: seq<Tag>)
    requires AllPlain(tags)
    ensures AllQuiet(tags)
  {
    forall i | 0 <= i < |tags|
      ensures QuietTag(tags[i])
    {
      PlainIsQuiet(tags[i]);
    }
  }

  // ------------------------------------------------- one disk fragment

  /** No occurrence of `sub` starts in `pre`: its first two characters never stand there. */
  predicate Skips(pre: string, sub: string)
    requires |sub| >= 2
  {
    forall i :: 0 <= i < |pre| && pre[i] == sub[0] ==> i + 1 < |pre| && pre[i + 1] != sub[1]
  }

  lemma FindAfter(pre: string, sub: string, post: string)
    requires |sub| >= 2 && Skips(pre, sub)
    ensures Index(pre + sub + post, sub) == |pre|
  {
    hide Index;
    var s := pre + sub + post;
    forall j | 0 <= j < |pre|
      ensures !At(s, sub, j)
    {
      NotAt(s, sub, j, if pre[j] == sub[0] then 1 else 0);
    }
    AtMiddle(pre, sub, post);
    IndexIs(s, sub, |pre|);
  }

  lemma FindChar(pre: string, c: char, post: string)
    requires NoChar(pre, c)
    ensures Index(pre + [c] + post, [c]) == |pre|
  {
    hide Index;
    var s := pre + [c] + post;
    forall j | 0 <= j < |pre|
      ensures !At(s, [c], j)
    {
      NotAt(s, [c], j, 0);
    }
    AtMiddle(pre, [c], post);
    IndexIs(s, [c], |pre|);
  }

  /** What precedes the first occurrence of a character does not hold it. */
  lemma BeforeFirst(s: string, c: char)
    ensures var i := Index(s, [c]);
      && NoChar(if i == -1 then s else s[..i], c)
      && (i != -1 ==> i < |s| && s[i] == c)
  {
    var i := Index(s, [c]);
    hide Index, IndexFrom;
    forall k | 0 <= k < (if i == -1 then |s| else i)
      ensures s[k] != c
    {
      assert !At(s, [c], k);
      assert s[k..k + 1] == [s[k]];
    }
    if i != -1 {
      assert s[i..i + 1] == [c];
    }
  }

  lemma FirstAt(s: string, c: char, i: nat)
    requires i < |s| && s[i] == c && NoChar(s[..i], c)
    ensures Index(s, [c]) == i
  {
    hide Index;
    assert s == s[..i] + [c] + s[i + 1..];
    FindChar(s[..i], c, s[i + 1..]);
  }

  lemma NotFound(s: string, c: char)
    requires NoChar(s, c)
    ensures Index(s, [c]) == -1
  {
    hide Index;
    BeforeFirst(s, c);
  }

  /** A tag's text up to its closing bracket goes on from any text without one. */
  lemma TagInBehind(a: string, b: string)
    requires NoChar(a, '>')
    ensures TagIn(a + b) == a + TagIn(b)
  {
    hide Index;
    var k := Index(b, ">");
    BeforeFirst(b, '>');
    if k == -1 {
      NotFound(a + b, '>');
    } else {
      assert (a + b)[..|a| + k] == a + b[..k];
      FirstAt(a + b, '>', |a| + k);
    }
  }

  function UpToQuote(text: string): string {
    var ei := Index(text, "'");
    if ei == -1 then "" else text[..ei]
  }

  /** An attribute is looked for behind its own marker. */
  lemma AttrInBehind(tagPrefix: string, attr: string, text: string)
    requires |tagPrefix| > 0 && |attr| > 0 && NoChar(tagPrefix, attr[0]) && attr[0] != ' '
    ensures AttrIn(tagPrefix + " " + (attr + "='") + text, attr) == UpToQuote(text)
  {
    hide Index, At;
    var marker := attr + "='";
    var tag := tagPrefix + " " + marker + text;
    FindAfter(tagPrefix + " ", marker, text);
    assert tag[|tagPrefix| + 1 + |marker|..] == text;
  }

  /** Cutting a printed value at the tag's closing bracket and then at the quote. */
  lemma CutAsRead(v: string, mid: string, post: string)
    requires NoChar(mid, '>')
    ensures UpToQuote(TagIn(v + "'" + (mid + ">" + post))) == AsRead(v)
  {
    var quote, bracket := Index(v, "'"), Index(v, ">");
    BeforeFirst(v, '\'');
    BeforeFirst(v, '>');
    hide Index;
    var tag := if bracket == -1 then v + "'" + mid else v[..bracket];
    if bracket == -1 {
      assert v + "'" + (mid + ">" + post) == tag + ['>'] + post;
      FindChar(tag, '>', post);
    } else {
      assert v + "'" + (mid + ">" + post) == tag + ['>'] + (v[bracket + 1..] + "'" + (mid + ">" + post));
      FindChar(tag, '>', v[bracket + 1..] + "'" + (mid + ">" + post));
    }
    assert TagIn(v + "'" + (mid + ">" + post)) == tag;
    if quote != -1 && (bracket == -1 || quote < bracket) {
      assert tag[..quote] == v[..quote];
      FirstAt(tag, '\'', quote);
    } else if bracket == -1 {
      assert tag[..|v|] == v;
      FirstAt(tag, '\'', |v|);
    } else {
      NotFound(tag, '\'');
    }
  }

  /** A tag is found past any text that holds no such tag, and its value is read back. */
  lemma AttrValue(pre: string, tagPrefix: string, attr: string, v: string, mid: string, post: string)
    requires |tagPrefix| >= 2 && |attr| > 0 && Skips(pre, tagPrefix)
    requires NoChar(tagPrefix, '>') && NoChar(attr, '>')
    requires NoChar(tagPrefix, attr[0]) && attr[0] != ' ' && NoChar(mid, '>')
    ensures XmlAttr(pre + (tagPrefix + " " + (attr + "='") + (v + "'" + (mid + ">" + post))), tagPrefix, attr)
         == AsRead(v)
  {
    var front, value := tagPrefix + " " + (attr + "='"), v + "'" + (mid + ">" + post);
    var open := front + value;
    TagInBehind(front, value);
    AttrInBehind(tagPrefix, attr, TagIn(value));
    CutAsRead(v, mid, post);
    hide Index, At, TagIn, AttrIn, UpToQuote, AsRead;
    var rest := open[|tagPrefix|..];
    assert open == tagPrefix + rest;
    assert pre + open == pre + tagPrefix + rest;
    FindAfter(pre, tagPrefix, rest);
    assert (pre + open)[|pre|..] == open;
  }

  lemma Regroup(pre: string, open: string, v: string, quote: string, mid: string, end: string, post: string,
                rest: string)
    ensures pre + open + v + ((quote + mid + end + post) + rest)
         == pre + (open + (v + quote + (mid + end + (post + rest))))
  {
  }

  /** The same, with the tag's opening and closing text as they are printed. */
  lemma AttrValueIn(block: string, pre: string, open: string, v: string, close: string, rest: string,
                    tagPrefix: string, attr: string, mid: string, post: string)
    requires |tagPrefix| >= 2 && |attr| > 0 && Skips(pre, tagPrefix)
    requires NoChar(tagPrefix, '>') && NoChar(attr, '>')
    requires NoChar(tagPrefix, attr[0]) && attr[0] != ' ' && NoChar(mid, '>')
    requires open == tagPrefix + " " + (attr + "='") && close == "'" + mid + ">" + post
    requires block == pre + open + v + (close + rest)
    ensures XmlAttr(block, tagPrefix, attr) == AsRead(v)
  {
    AttrValue(pre, tagPrefix, attr, v, mid, post + rest);
    hide *;
    Regroup(pre, open, v, "'", mid, ">", post, rest);
  }

  lemma SkipsConcat(a: string, b: string, sub: string)
    requires |sub| >= 2 && Skips(a, sub) && Skips(b, sub)
    ensures Skips(a + b, sub)
  {
  }

  lemma TagSkips(t: Tag, sub: string)
    requires NoChar(t.body, '<') && NoChar(t.after, '<') && |t.body| >= 2 && !t.Close?
    requires |sub| >= 2 && sub[0] == '<' && sub[1] != t.body[0]
    ensures Skips(TagText(t), sub)
  {
    TagRestText(t);
    assert TagText(t)[1] == t.body[0];
    hide TagRest;
  }

  /** The two fixed tags of a fragment. */
  predicate FragmentTag(t: Tag) {
    Plain(t.body) && Plain(t.after) && |t.body| >= 2 && t.body[0] == 'd' && !t.Close?
  }

  lemma DiskTagText()
    ensures FragmentTag(DISK_TAG)
  {
  }

  lemma DriverTagText()
    ensures FragmentTag(DRIVER_TAG)
  {
  }

  lemma FragmentTags()
    ensures forall t | t in [DISK_TAG, DRIVER_TAG] ::
      Plain(t.body) && Plain(t.after) && |t.body| >= 2 && t.body[0] == 'd' && !t.Close?
  {
    DiskTagText();
    DriverTagText();
    hide Plain;
  }

  lemma PlainNoLt(s: string)
    requires Plain(s)
    ensures NoChar(s, '<') && NoChar(s, '/')
  {
    assert forall i :: 0 <= i < |s| ==> PlainChar(s[i]);
  }

  lemma NoLtSkips(s: string, sub: string)
    requires NoChar(s, '<') && |sub| >= 2 && sub[0] == '<'
    ensures Skips(s, sub)
  {
  }

  /** Up to the path, a fragment holds only the disk, driver and source tags. */
  lemma FragmentSkips(sub: string)
    requires |sub| >= 2 && sub[0] == '<' && sub[1] != 'd'
    ensures Skips(TagText(DISK_TAG) + TagText(DRIVER_TAG), sub)
    ensures sub[1] != 's' ==> Skips(DISK_PREFIX, sub)
  {
    FragmentTags();
    hide *;
    forall t | t in [DISK_TAG, DRIVER_TAG]
      ensures Skips(TagText(t), sub)
    {
      PlainNoLt(t.body);
      PlainNoLt(t.after);
      TagSkips(t, sub);
    }
    SkipsConcat(TagText(DISK_TAG), TagText(DRIVER_TAG), sub);
    if sub[1] != 's' {
      SourceOpenSkips(sub);
      SkipsConcat(TagText(DISK_TAG) + TagText(DRIVER_TAG), SOURCE_OPEN, sub);
      PrefixParts();
    }
  }

  lemma SourceOpenSkips(sub: string)
    requires |sub| >= 2 && sub[0] == '<' && sub[1] != 's'
    ensures Skips(SOURCE_OPEN, sub)
  {
  }

  lemma PrefixParts()
    ensures DISK_PREFIX == TagText(DISK_TAG) + TagText(DRIVER_TAG) + SOURCE_OPEN
  {
  }

  /** Past the path too, up to the target, when the path holds no `<`. */
  lemma PathSkips(path: string, sub: string)
    requires NoChar(path, '<')
    requires |sub| >= 2 && sub[0] == '<' && sub[1] != 'd' && sub[1] != 's'
    ensures Skips(DISK_PREFIX + path + SOURCE_CLOSE, sub)
  {
    FragmentSkips(sub);
    assert NoChar(SOURCE_CLOSE, '<');
    hide *;
    NoLtSkips(path, sub);
    NoLtSkips(SOURCE_CLOSE, sub);
    SkipsConcat(DISK_PREFIX, path, sub);
    SkipsConcat(DISK_PREFIX + path, SOURCE_CLOSE, sub);
  }

  lemma SourceText()
    ensures SOURCE_OPEN == "<source" + " " + "file" + "='"
    ensures SOURCE_CLOSE == "'" + "/" + ">" + "\n      "
  {
  }

  lemma TargetText()
    ensures TARGET_OPEN == "<target" + " " + "dev" + "='"
    ensures TARGET_CLOSE == "'" + " bus='virtio'/" + ">" + "\n    "
  {
  }

  lemma BlockPath(path: string, target: string)
    ensures XmlAttr(DiskXml(path, target), "<source", "file") == AsRead(path)
  {
    hide XmlAttr, TagText, AsRead;
    var tags := TagText(DISK_TAG) + TagText(DRIVER_TAG);
    FragmentSkips("<source");
    SourceText();
    AttrValueIn(DiskXml(path, target), tags, SOURCE_OPEN, path, SOURCE_CLOSE,
                TARGET_OPEN + target + TARGET_CLOSE + DISK_CLOSE, "<source", "file", "/", "\n      ");
  }

  lemma BlockTarget(path: string, target: string)
    requires NoChar(path, '<')
    ensures XmlAttr(DiskXml(path, target), "<target", "dev") == AsRead(target)
  {
    hide XmlAttr, TagText, AsRead;
    PathSkips(path, "<target");
    TargetText();
    AttrValueIn(DiskXml(path, target), DISK_PREFIX + path + SOURCE_CLOSE, TARGET_OPEN, target, TARGET_CLOSE,
                DISK_CLOSE, "<target", "dev", " bus='virtio'/", "\n    ");
  }

  /** Everything of a fragment before its closing tag. */
  function FragmentBody(path: string, target: string): string {
    DISK_PREFIX + path + SOURCE_CLOSE + (TARGET_OPEN + target + TARGET_CLOSE)
  }

  lemma DiskTagStarts()
    ensures At(TagText(DISK_TAG), "<disk", 0)
  {
    assert DISK_TAG.body[..4] == "disk";
    assert TagText(DISK_TAG)[..5] == "<" + DISK_TAG.body[..4];
  }

  lemma FragmentParts(path: string, target: string)
    ensures DiskXml(path, target) == FragmentBody(path, target) + DISK_CLOSE
    ensures At(DiskXml(path, target), "<disk", 0)
  {
    hide TagText;
    DiskTagStarts();
    assert DiskXml(path, target)[..5] == TagText(DISK_TAG)[..5];
  }

  /** In a clean fragment the only closing tag is its last one. */
  lemma BodySkips(path: string, target: string)
    requires NoChar(path, '<') && NoChar(target, '<')
    ensures Skips(FragmentBody(path, target), DISK_CLOSE)
  {
    PathSkips(path, DISK_CLOSE);
    assert Skips(TARGET_OPEN, DISK_CLOSE);
    assert NoChar(TARGET_CLOSE, '<');
    assert DISK_CLOSE[0] == '<';
    var pre := DISK_PREFIX + path + SOURCE_CLOSE;
    assert FragmentBody(path, target) == pre + (TARGET_OPEN + target + TARGET_CLOSE);
    hide *;
    NoLtSkips(target, DISK_CLOSE);
    NoLtSkips(TARGET_CLOSE, DISK_CLOSE);
    SkipsConcat(TARGET_OPEN, target, DISK_CLOSE);
    SkipsConcat(TARGET_OPEN + target, TARGET_CLOSE, DISK_CLOSE);
    SkipsConcat(pre, TARGET_OPEN + target + TARGET_CLOSE, DISK_CLOSE);
  }

  // ------------------------------------------------- the list of disks

  /** Quiet text neither opens a disk itself nor together with what follows. */
  lemma QuietNoDisk(a: string, rest: string, j: int)
    requires Quiet(a) && 0 <= j < |a|
    ensures !At(a + rest, "<disk", j)
  {
    NotAt(a + rest, "<disk", j, if a[j] != '<' then 0 else if a[j + 1] != 'd' then 1 else 2);
  }

  lemma FindDisk(a: string, rest: string)
    requires Quiet(a) && At(rest, "<disk", 0)
    ensures Index(a + rest, "<disk") == |a|
  {
    hide Index;
    forall j | 0 <= j < |a|
      ensures !At(a + rest, "<disk", j)
    {
      QuietNoDisk(a, rest, j);
    }
    assert (a + rest)[|a|..|a| + 5] == rest[0..5];
    IndexIs(a + rest, "<disk", |a|);
  }

  /** Quiet text lists nothing. */
  lemma QuietLists(a: string)
    requires Quiet(a)
    ensures FileDisks(a) == []
  {
    var i := Index(a, "<disk");
    if i != -1 {
      assert a + "" == a;
      QuietNoDisk(a, "", i);
    }
  }

  /** A fragment behind quiet text is the next block that the parser finds. */
  lemma FindFragment(a: string, path: string, target: string, b: string)
    requires Quiet(a) && NoChar(path, '<') && NoChar(target, '<')
    ensures var d := DiskXml(path, target);
      && Index(a + d + b, "<disk") == |a| && (a + d + b)[|a|..] == d + b
      && Index(d + b, "</disk>") == |d| - 7 && (d + b)[..|d|] == d && (d + b)[|d|..] == b && |d| >= 7
  {
    hide DiskXml, NoChar;
    var d := DiskXml(path, target);
    var body := FragmentBody(path, target);
    FragmentParts(path, target);
    assert a + d + b == a + (d + b);
    assert (d + b)[..5] == d[..5];
    FindDisk(a, d + b);
    BodySkips(path, target);
    FindAfter(body, DISK_CLOSE, b);
    assert d + b == body + DISK_CLOSE + b;
  }

  /** A fragment behind quiet text contributes what is read back of it to the list. */
  lemma NextDisk(a: string, path: string, target: string, b: string)
    requires Quiet(a) && NoChar(path, '<') && NoChar(target, '<')
    ensures FileDisks(a + DiskXml(path, target) + b) == ReadDisk(path, target) + FileDisks(b)
  {
    hide DiskXml, XmlAttr, AsRead, NoChar, Quiet, Index;
    FindFragment(a, path, target, b);
    BlockPath(path, target);
    BlockTarget(path, target);
  }

  /** Of names that cannot open a tag, there are three kinds. */
  lemma ThreeKinds(v: string)
    requires NoChar(v, '<')
    ensures CleanText(v) <==> !QuoteFirst(v) && !BracketFirst(v)
    ensures !(QuoteFirst(v) && BracketFirst(v))
  {
    BeforeFirst(v, '\'');
    BeforeFirst(v, '>');
    hide Index;
  }

  /** Text in front, and text behind: the first stop character is that of the name. */
  lemma KindAround(a: string, v: string, b: string)
    requires CleanText(a) && CleanText(b)
    ensures var s := a + v + b;
      && (QuoteFirst(s) <==> QuoteFirst(v)) && (BracketFirst(s) <==> BracketFirst(v))
      && (QuoteFirst(v) ==> BeforeQuote(s) == a + BeforeQuote(v))
  {
    IndexAround(a, v, b, '\'');
    IndexAround(a, v, b, '>');
    hide Index, CleanText;
    var q := Index(v, "'");
    if q != -1 {
      assert (a + v + b)[..|a| + q] == a + v[..q];
    }
  }

  lemma IndexAround(a: string, v: string, b: string, c: char)
    requires CleanText(a) && CleanText(b) && Stop(c)
    ensures var i := Index(v, [c]);
      Index(a + v + b, [c]) == if i == -1 then -1 else |a| + i
  {
    var i := Index(v, [c]);
    BeforeFirst(v, c);
    hide Index;
    if i == -1 {
      NotFound(a + v + b, c);
    } else {
      assert (a + v + b)[..|a| + i] == a + v[..i];
      FirstAt(a + v + b, c, |a| + i);
    }
  }

  /** Read back unchanged is what holds neither a quote nor a closing bracket. */
  lemma AsReadExactly(v: string)
    ensures AsRead(v) == v <==> NoChar(v, '\'') && NoChar(v, '>')
    ensures NoChar(AsRead(v), '\'') && NoChar(AsRead(v), '>')
  {
    BeforeFirst(v, '\'');
    BeforeFirst(v, '>');
    hide Index;
    if NoChar(v, '\'') && NoChar(v, '>') {
      NotFound(v, '\'');
      NotFound(v, '>');
    }
  }

  // ------------------------------------------------- the fixed parts of a domain

  lemma DecPlain(n: nat)
    ensures Plain(Dec(n))
  {
  }

  lemma NameTags(cfg: VMConfig)
    requires NoChar(cfg.name, '<')
    ensures PlainTag(DOMAIN_TAG) && PlainTag(NAME_CLOSE) && QuietTag(Open("name", cfg.name))
    ensures Plain(cfg.name) ==> PlainTag(Open("name", cfg.name))
  {
    assert NoChar("name", '<') && |"name"| == 4;
  }

  lemma SizingPlain(cfg: VMConfig)
    ensures AllPlain(SizingTags(cfg))
  {
    var tags := SizingTags(cfg);
    DecPlain(cfg.memory);
    DecPlain(cfg.vcpus);
    hide Dec;
    assert PlainTag(tags[0]) && PlainTag(tags[1]) && PlainTag(tags[2]) && PlainTag(tags[3]);
    hide PlainTag;
  }

  lemma OsTags0()
    ensures PlainTag(OS_TAGS[0])
  {
  }

  lemma OsTags1()
    ensures PlainTag(OS_TAGS[1])
  {
  }

  lemma OsTags2()
    ensures PlainTag(OS_TAGS[2]) && PlainTag(OS_TAGS[3])
  {
  }

  lemma OsTags3()
    ensures PlainTag(OS_TAGS[4])
  {
  }

  lemma OsPlain()
    ensures AllPlain(OS_TAGS)
  {
    OsTags0();
    OsTags1();
    OsTags2();
    OsTags3();
    hide PlainTag;
  }

  lemma FeatureTags0()
    ensures PlainTag(FEATURE_TAGS[0]) && PlainTag(FEATURE_TAGS[1])
  {
  }

  lemma FeatureTags1()
    ensures PlainTag(FEATURE_TAGS[2]) && PlainTag(FEATURE_TAGS[3])
  {
  }

  lemma CpuAttrs()
    ensures var attrs := "cpu mode='host-passthrough' check='none'";
      Plain(attrs) && NoChar(attrs, '>') && |attrs| >= 2 && attrs[0] == 'c' && Plain("\n  ")
  {
  }

  lemma FeatureTags2()
    ensures PlainTag(FEATURE_TAGS[4])
  {
    CpuAttrs();
    hide NoChar, Plain;
  }

  lemma FeatureTags3()
    ensures PlainTag(FEATURE_TAGS[5])
  {
  }

  lemma FeaturePlain()
    ensures AllPlain(FEATURE_TAGS)
  {
    FeatureTags0();
    FeatureTags1();
    FeatureTags2();
    FeatureTags3();
    hide PlainTag;
  }

  lemma SerialPlain()
    ensures AllPlain(SERIAL_TAGS)
  {
    assert PlainTag(SERIAL_TAGS[0]) && PlainTag(SERIAL_TAGS[1]) && PlainTag(SERIAL_TAGS[2]);
    hide PlainTag;
  }

  lemma ConsoleTags0()
    ensures PlainTag(CONSOLE_TAGS[0])
  {
  }

  lemma ConsoleTags1()
    ensures PlainTag(CONSOLE_TAGS[1])
  {
  }

  lemma ConsoleTags2()
    ensures PlainTag(CONSOLE_TAGS[2])
  {
  }

  lemma ConsolePlain()
    ensures AllPlain(CONSOLE_TAGS)
  {
    ConsoleTags0();
    ConsoleTags1();
    ConsoleTags2();
    hide PlainTag;
  }

  lemma PlainConcat(a: string, b: string)
    requires Plain(a) && Plain(b)
    ensures Plain(a + b)
  {
  }

  lemma LongAttrsPlain()
    ensures Plain(GRAPHICS_ATTRS) && Plain(LISTEN_ATTRS) && Plain(MODEL_ATTRS)
  {
    PlainConcat("graphics type='vnc' ", "port='-1' autoport='yes'");
    PlainConcat("listen type='address' ", "address='127.0.0.1'");
    PlainConcat("model type='qxl' ram='65536' ", "vram='65536' vgamem='16384' ");
    PlainConcat("model type='qxl' ram='65536' " + "vram='65536' vgamem='16384' ", "heads='1' primary='yes'");
  }

  lemma GraphicsPlain()
    ensures AllPlain(GRAPHICS_TAGS)
  {
    LongAttrsPlain();
    assert PlainTag(GRAPHICS_TAGS[0]) && PlainTag(GRAPHICS_TAGS[1]) && PlainTag(GRAPHICS_TAGS[2]);
    hide PlainTag;
  }

  lemma VideoPlain()
    ensures AllPlain(VIDEO_TAGS)
  {
    LongAttrsPlain();
    assert PlainTag(VIDEO_TAGS[0]) && PlainTag(VIDEO_TAGS[1]) && PlainTag(VIDEO_TAGS[2]);
    hide PlainTag;
  }

  lemma ChannelTags0()
    ensures PlainTag(CHANNEL_TAGS[0])
  {
  }

  lemma ChannelTags1()
    ensures PlainTag(CHANNEL_TAGS[1])
  {
  }

  lemma ChannelTags2()
    ensures PlainTag(CHANNEL_TAGS[2])
  {
  }

  lemma ChannelPlain()
    ensures AllPlain(CHANNEL_TAGS)
  {
    ChannelTags0();
    ChannelTags1();
    ChannelTags2();
    hide PlainTag;
  }

  lemma ClosingTags0()
    ensures QuietTag(CLOSING_TAGS[0])
  {
  }

  lemma ClosingTags1()
    ensures QuietTag(CLOSING_TAGS[1])
  {
  }

  lemma ClosingTags2()
    ensures QuietTag(CLOSING_TAGS[2])
  {
  }

  lemma ClosingTags3()
    ensures QuietTag(CLOSING_TAGS[3]) && QuietTag(CLOSING_TAGS[4])
  {
  }

  lemma ClosingTags4()
    ensures QuietTag(CLOSING_TAGS[5]) && QuietTag(CLOSING_TAGS[6])
  {
  }

  lemma ClosingQuiet()
    ensures AllQuiet(CLOSING_TAGS)
  {
    ClosingTags0();
    ClosingTags1();
    ClosingTags2();
    ClosingTags3();
    ClosingTags4();
    hide QuietTag;
  }
}
