/** `prepare` of prepare-initrd.py: the installer's image is the original one and an overlay that holds the kit. */
module Installer {
  import opened Text
  import opened Initrd

  /** A gzip file is a sequence of members; decompression concatenates their contents (section 2.2 of RFC 1952). */
  type Gzip = seq<Bytes>

  function Decompress(file: Gzip): Bytes {
    if file == [] then [] else file[0] + Decompress(file[1..])
  }

  function Compress(data: Bytes): Gzip {
    [data]
  }

  lemma {:induction false} DecompressAppend(a: Gzip, data: Bytes)
    ensures Decompress(a + Compress(data)) == Decompress(a) + data
  {
    if a == [] {
      assert a + Compress(data) == [data];
      assert [data][1..] == [];
    } else {
      assert (a + Compress(data))[1..] == a[1..] + Compress(data);
      DecompressAppend(a[1..], data);
    }
  }

  /** The files the overlay is built from, apart from the status database. */
  datatype Kit = Kit(frontend: Bytes, theme: Bytes,
                     templates: map<string, Bytes>, postinst: map<string, Bytes>, isinstallable: Bytes)

  // ----- what an installer image must hold ---------------------------------------------------------

  /** What reading the image gives. */
  function Read(file: Gzip, codec: Codec): Result<Files, Fault> {
    ReadFrom(Decompress(file), 0, map[], codec)
  }

  /** A regular file with permissions 0644, and one with 0755. */
  predicate IsPlain(files: Files, path: string, data: Bytes) {
    path in files && files[path] == Node(0x8000 + 0x1A4, data)
  }

  predicate IsScript(files: Files, path: string, data: Bytes) {
    path in files && files[path] == Node(0x8000 + 0x1ED, data)
  }

  /** Each file of the kit is in its place. */
  predicate HoldsKit(files: Files, kit: Kit) {
    && IsPlain(files, "usr/lib/cdebconf/frontend/newt.so", kit.frontend)
    && IsPlain(files, "usr/lib/debian-installer.d/S66rougarou-theme", kit.theme)
    && HoldsComponent(files, kit, "welcome") && HoldsComponent(files, kit, "access")
    && HoldsComponent(files, kit, "software")
  }

  predicate HoldsComponent(files: Files, kit: Kit, name: string) {
    && name in kit.templates && name in kit.postinst
    && IsPlain(files, "var/lib/dpkg/info/rougarou-" + name + ".templates", kit.templates[name])
    && IsScript(files, "var/lib/dpkg/info/rougarou-" + name + ".postinst", kit.postinst[name])
    && IsScript(files, "var/lib/dpkg/info/rougarou-" + name + ".isinstallable", kit.isinstallable)
  }

  /** The status database with the stanzas of the three components appended, each closed by an empty line. */
  predicate IsExtended(text: string, longer: string) {
    longer == text + "\n" + "Package: rougarou-welcome" + "\n" + (
      "Status: install ok unpacked\nVersion: 1\nArchitecture: all\nSection: debian-installer\nPriority: optional\n" +
      "Depends: cdebconf-udeb\nInstaller-Menu-Item: 900\nDescription: Begin Rougarou installation\n\n" +
      "Package: rougarou-access\n" +
      "Status: install ok unpacked\nVersion: 1\nArchitecture: all\nSection: debian-installer\nPriority: optional\n" +
      "Depends: cdebconf-udeb, user-setup-udeb\nInstaller-Menu-Item: 2450\nDescription: Choose operator access\n\n" +
      "Package: rougarou-software\n" +
      "Status: install ok unpacked\nVersion: 1\nArchitecture: all\nSection: debian-installer\nPriority: optional\n" +
      "Depends: cdebconf-udeb, rougarou-access\nInstaller-Menu-Item: 2460\n" +
      "Description: Choose agents and container tools\n\n")
  }

  /** The original is unreadable, is no installer image, or has the components already. */
  ghost predicate IsUnfit(original: Gzip, codec: Codec) {
    Read(original, codec).Err? ||
    var files := Read(original, codec).value;
    || "usr/lib/cdebconf/frontend/newt.so" !in files || "var/lib/dpkg/status" !in files
    || codec.decode(files["var/lib/dpkg/status"].data).None?
    || exists line ::
         line in Lines(codec.decode(files["var/lib/dpkg/status"].data).value) && "Package: rougarou-" <= line
  }

  /** The image begins with the original, and holds the kit and the extended status database. */
  ghost predicate Installs(original: Gzip, kit: Kit, out: Gzip, codec: Codec) {
    && original <= out && !IsUnfit(original, codec) && Read(out, codec).Ok?
    && HoldsKit(Read(out, codec).value, kit)
    && exists longer ::
         && IsExtended(codec.decode(Read(original, codec).value["var/lib/dpkg/status"].data).value, longer)
         && IsPlain(Read(out, codec).value, "var/lib/dpkg/status", codec.encode(longer))
  }

  const STATUS_PATH := "var/lib/dpkg/status"
  const FRONTEND_PATH := "usr/lib/cdebconf/frontend/newt.so"
  const MARK := "Package: rougarou-"
  const COMPONENTS := {"welcome", "access", "software"}

  /** The stanzas appended to the status database, from the first added line on. */
  const FIRST_ADDED := "Package: rougarou-welcome"
  const REST_ADDED :=
    "Status: install ok unpacked\nVersion: 1\nArchitecture: all\nSection: debian-installer\nPriority: optional\n" +
    "Depends: cdebconf-udeb\nInstaller-Menu-Item: 900\nDescription: Begin Rougarou installation\n\n" +
    "Package: rougarou-access\n" +
    "Status: install ok unpacked\nVersion: 1\nArchitecture: all\nSection: debian-installer\nPriority: optional\n" +
    "Depends: cdebconf-udeb, user-setup-udeb\nInstaller-Menu-Item: 2450\nDescription: Choose operator access\n\n" +
    "Package: rougarou-software\n" +
    "Status: install ok unpacked\nVersion: 1\nArchitecture: all\nSection: debian-installer\nPriority: optional\n" +
    "Depends: cdebconf-udeb, rougarou-access\nInstaller-Menu-Item: 2460\n" +
    "Description: Choose agents and container tools\n\n"

  datatype PrepareFault = Unreadable(why: Fault) | Incomplete | AppliedTwice | KitIncomplete | ValidationFailed

  function WithStanzas(status: string): string {
    status + "\n" + FIRST_ADDED + "\n" + REST_ADDED
  }

  predicate Applied(status: string) {
    exists k :: 0 <= k < |Lines(status)| && MARK <= Lines(status)[k]
  }

  predicate CompleteKit(kit: Kit) {
    kit.templates.Keys == COMPONENTS && kit.postinst.Keys == COMPONENTS
  }

  const INFO := "var/lib/dpkg/info/rougarou-"

  /** Where the twelve files of the overlay go. */
  const OVERLAY_PATHS: set<string> :=
    {FRONTEND_PATH, STATUS_PATH, "usr/lib/debian-installer.d/S66rougarou-theme",
     INFO + "welcome.templates", INFO + "access.templates", INFO + "software.templates",
     INFO + "welcome.postinst", INFO + "access.postinst", INFO + "software.postinst",
     INFO + "welcome.isinstallable", INFO + "access.isinstallable", INFO + "software.isinstallable"}

  /** The overlay itself: regular files, with mode 0755 for the component scripts and 0644 for the rest. */
  function Overlay(kit: Kit, status: Bytes): (overlay: Files)
    requires CompleteKit(kit)
    ensures overlay.Keys == OVERLAY_PATHS
    ensures overlay[STATUS_PATH] == Node(0x81A4, status)
  {
    map[FRONTEND_PATH := Node(0x81A4, kit.frontend),
        "usr/lib/debian-installer.d/S66rougarou-theme" := Node(0x81A4, kit.theme),
        INFO + "welcome.templates" := Node(0x81A4, kit.templates["welcome"]),
        INFO + "access.templates" := Node(0x81A4, kit.templates["access"]),
        INFO + "software.templates" := Node(0x81A4, kit.templates["software"]),
        INFO + "welcome.postinst" := Node(0x81ED, kit.postinst["welcome"]),
        INFO + "access.postinst" := Node(0x81ED, kit.postinst["access"]),
        INFO + "software.postinst" := Node(0x81ED, kit.postinst["software"]),
        INFO + "welcome.isinstallable" := Node(0x81ED, kit.isinstallable),
        INFO + "access.isinstallable" := Node(0x81ED, kit.isinstallable),
        INFO + "software.isinstallable" := Node(0x81ED, kit.isinstallable),
        STATUS_PATH := Node(0x81A4, status)]
  }

  predicate Contains(files: Files, overlay: Files) {
    forall name :: name in overlay ==> name in files && files[name] == overlay[name]
  }

  /** The status text of an initrd that has both expected files. */
  function StatusText(file: Gzip, codec: Codec): Result<string, PrepareFault> {
    match ReadFrom(Decompress(file), 0, map[], codec)
    case Err(e) => Err(Unreadable(e))
    case Ok(files) =>
      if FRONTEND_PATH !in files || STATUS_PATH !in files then Err(Incomplete)
      else match codec.decode(files[STATUS_PATH].data)
        case None => Err(Unreadable(BadName))
        case Some(status) => Ok(status)
  }

  lemma UnfitIs(original: Gzip, codec: Codec)
    ensures IsUnfit(original, codec) <==>
              StatusText(original, codec).Err? || Applied(StatusText(original, codec).value)
    ensures !IsUnfit(original, codec) ==>
              StatusText(original, codec) ==
              Ok(codec.decode(Read(original, codec).value["var/lib/dpkg/status"].data).value)
  {
    if StatusText(original, codec).Ok? {
      var status := StatusText(original, codec).value;
      if line :| line in Lines(status) && "Package: rougarou-" <= line {
        MarkedIsApplied(status, line);
      }
      if Applied(status) {
        var k :| 0 <= k < |Lines(status)| && MARK <= Lines(status)[k];
        assert Lines(status)[k] in Lines(status);
      }
    }
  }

  lemma PathOf(name: string, tail: string, whole: string)
    requires whole == name + tail
    ensures "var/lib/dpkg/info/rougarou-" + name + tail == INFO + whole
  {
  }

  lemma EndingsAre()
    ensures "welcome" + ".templates" == "welcome.templates" && "access" + ".templates" == "access.templates"
    ensures "software" + ".templates" == "software.templates"
    ensures "welcome" + ".postinst" == "welcome.postinst" && "access" + ".postinst" == "access.postinst"
    ensures "software" + ".postinst" == "software.postinst"
    ensures "welcome" + ".isinstallable" == "welcome.isinstallable"
    ensures "access" + ".isinstallable" == "access.isinstallable"
    ensures "software" + ".isinstallable" == "software.isinstallable"
  {
  }

  lemma ComponentIs(files: Files, kit: Kit, overlay: Files, name: string, t: string, p: string, i: string)
    requires Contains(files, overlay) && name in kit.templates && name in kit.postinst
    requires t == name + ".templates" && p == name + ".postinst" && i == name + ".isinstallable"
    requires INFO + t in overlay && overlay[INFO + t] == Node(0x81A4, kit.templates[name])
    requires INFO + p in overlay && overlay[INFO + p] == Node(0x81ED, kit.postinst[name])
    requires INFO + i in overlay && overlay[INFO + i] == Node(0x81ED, kit.isinstallable)
    ensures HoldsComponent(files, kit, name)
  {
    PathOf(name, ".templates", t);
    PathOf(name, ".postinst", p);
    PathOf(name, ".isinstallable", i);
  }

  lemma OverlayIsKit(files: Files, kit: Kit, status: Bytes)
    requires CompleteKit(kit) && Contains(files, Overlay(kit, status))
    ensures HoldsKit(files, kit) && IsPlain(files, "var/lib/dpkg/status", status)
  {
    EndingsAre();
    var overlay := Overlay(kit, status);
    OverlayHolds(kit, status);
    ComponentIs(files, kit, overlay, "welcome", "welcome.templates", "welcome.postinst", "welcome.isinstallable");
    ComponentIs(files, kit, overlay, "access", "access.templates", "access.postinst", "access.isinstallable");
    ComponentIs(files, kit, overlay, "software", "software.templates", "software.postinst", "software.isinstallable");
  }

  /** The paths of the overlay, told apart by length and one letter. */
  function Number(path: string): int {
    var c := if |path| > 27 then path[27] else ' ';
    if |path| == 19 then 11 else if |path| == 33 then 0
    else if |path| == 44 && c == 'S' then 1
    else if |path| == 44 && c == 'w' then 2
    else if |path| == 43 && c == 'a' then 3
    else if |path| == 45 && c == 's' then 4
    else if |path| == 43 && c == 'w' then 5
    else if |path| == 42 && c == 'a' then 6
    else if |path| == 44 && c == 's' then 7
    else if |path| == 48 && c == 'w' then 8
    else if |path| == 47 && c == 'a' then 9
    else if |path| == 49 && c == 's' then 10
    else 12
  }

  lemma InfoPath(name: string)
    requires name != ""
    ensures |INFO + name| == 27 + |name| && (INFO + name)[27] == name[0]
  {
    assert |INFO| == 27;
  }

  lemma FixedNumbers()
    ensures Number(FRONTEND_PATH) == 0 && Number(STATUS_PATH) == 11
    ensures Number("usr/lib/debian-installer.d/S66rougarou-theme") == 1
  {
    assert |FRONTEND_PATH| == 33 && |STATUS_PATH| == 19;
    assert |"usr/lib/debian-installer.d/S66rougarou-theme"| == 44;
    assert "usr/lib/debian-installer.d/S66rougarou-theme"[27] == 'S';
  }

  lemma TemplateNumbers()
    ensures Number(INFO + "welcome.templates") == 2
    ensures Number(INFO + "access.templates") == 3
    ensures Number(INFO + "software.templates") == 4
  {
    assert |"welcome.templates"| == 17 && "welcome.templates"[0] == 'w';
    InfoPath("welcome.templates");
    assert |"access.templates"| == 16 && "access.templates"[0] == 'a';
    InfoPath("access.templates");
    assert |"software.templates"| == 18 && "software.templates"[0] == 's';
    InfoPath("software.templates");
  }

  lemma ScriptNumbers()
    ensures Number(INFO + "welcome.postinst") == 5
    ensures Number(INFO + "access.postinst") == 6
    ensures Number(INFO + "software.postinst") == 7
  {
    assert |"welcome.postinst"| == 16 && "welcome.postinst"[0] == 'w';
    InfoPath("welcome.postinst");
    assert |"access.postinst"| == 15 && "access.postinst"[0] == 'a';
    InfoPath("access.postinst");
    assert |"software.postinst"| == 17 && "software.postinst"[0] == 's';
    InfoPath("software.postinst");
  }

  lemma CheckNumbers()
    ensures Number(INFO + "welcome.isinstallable") == 8
    ensures Number(INFO + "access.isinstallable") == 9
    ensures Number(INFO + "software.isinstallable") == 10
  {
    assert |"welcome.isinstallable"| == 21 && "welcome.isinstallable"[0] == 'w';
    InfoPath("welcome.isinstallable");
    assert |"access.isinstallable"| == 20 && "access.isinstallable"[0] == 'a';
    InfoPath("access.isinstallable");
    assert |"software.isinstallable"| == 22 && "software.isinstallable"[0] == 's';
    InfoPath("software.isinstallable");
  }

  lemma TwelvePaths(k: seq<string>, v: seq<Node>, m: Files)
    requires |k| == |v| == 12 && forall i :: 0 <= i < 12 ==> Number(k[i]) == i
    requires m == map[k[0] := v[0], k[1] := v[1], k[2] := v[2], k[3] := v[3], k[4] := v[4], k[5] := v[5], k[6] := v[6],
                      k[7] := v[7], k[8] := v[8], k[9] := v[9], k[10] := v[10], k[11] := v[11]]
    ensures forall i :: 0 <= i < 12 ==> k[i] in m && m[k[i]] == v[i]
  {
  }

  /** Where the overlay has what. */
  lemma OverlayHolds(kit: Kit, status: Bytes)
    requires CompleteKit(kit)
    ensures var o := Overlay(kit, status);
            && o[FRONTEND_PATH] == Node(0x81A4, kit.frontend)
            && o["usr/lib/debian-installer.d/S66rougarou-theme"] == Node(0x81A4, kit.theme)
            && o[INFO + "welcome.templates"] == Node(0x81A4, kit.templates["welcome"])
            && o[INFO + "access.templates"] == Node(0x81A4, kit.templates["access"])
            && o[INFO + "software.templates"] == Node(0x81A4, kit.templates["software"])
            && o[INFO + "welcome.postinst"] == Node(0x81ED, kit.postinst["welcome"])
            && o[INFO + "access.postinst"] == Node(0x81ED, kit.postinst["access"])
            && o[INFO + "software.postinst"] == Node(0x81ED, kit.postinst["software"])
            && o[INFO + "welcome.isinstallable"] == Node(0x81ED, kit.isinstallable)
            && o[INFO + "access.isinstallable"] == Node(0x81ED, kit.isinstallable)
            && o[INFO + "software.isinstallable"] == Node(0x81ED, kit.isinstallable)
  {
    FixedNumbers();
    TemplateNumbers();
    ScriptNumbers();
    CheckNumbers();
    var k := [FRONTEND_PATH,
              "usr/lib/debian-installer.d/S66rougarou-theme",
              INFO + "welcome.templates",
              INFO + "access.templates",
              INFO + "software.templates",
              INFO + "welcome.postinst",
              INFO + "access.postinst",
              INFO + "software.postinst",
              INFO + "welcome.isinstallable",
              INFO + "access.isinstallable",
              INFO + "software.isinstallable",
              STATUS_PATH];
    var v := [Node(0x81A4, kit.frontend),
              Node(0x81A4, kit.theme),
              Node(0x81A4, kit.templates["welcome"]),
              Node(0x81A4, kit.templates["access"]),
              Node(0x81A4, kit.templates["software"]),
              Node(0x81ED, kit.postinst["welcome"]),
              Node(0x81ED, kit.postinst["access"]),
              Node(0x81ED, kit.postinst["software"]),
              Node(0x81ED, kit.isinstallable),
              Node(0x81ED, kit.isinstallable),
              Node(0x81ED, kit.isinstallable),
              Node(0x81A4, status)];
    TwelvePaths(k, v, Overlay(kit, status));
  }

  /** Once `prepare` has validated its output, that is as it must be. */
  lemma PreparedInstalls(original: Gzip, kit: Kit, order: seq<string>, codec: Codec)
    requires Enumerates(order, OVERLAY_PATHS)
    ensures Prepared(original, kit, order, codec).Ok? ==>
              Installs(original, kit, Prepared(original, kit, order, codec).value, codec)
  {
    var out := Prepared(original, kit, order, codec);
    if out.Ok? {
      UnfitIs(original, codec);
      var longer := WithStanzas(StatusText(original, codec).value);
      assert IsExtended(StatusText(original, codec).value, longer);
      OverlayIsKit(Read(out.value, codec).value, kit, codec.encode(longer));
    }
  }

  /** `prepare`, writing the overlay's records in `order`; the original sorts them by name. */
  method Prepare(original: Gzip, kit: Kit, order: seq<string>, codec: Codec) returns (out: Result<Gzip, PrepareFault>)
    requires Enumerates(order, OVERLAY_PATHS)
    ensures out == Prepared(original, kit, order, codec)
    ensures out.Ok? ==> Installs(original, kit, out.value, codec)
  {
    PreparedInstalls(original, kit, order, codec);
    var entries := Entries(Decompress(original), codec);
    if entries.Err? {
      return Err(Unreadable(entries.error));
    }
    var originals := entries.value;
    if FRONTEND_PATH !in originals || STATUS_PATH !in originals {
      return Err(Incomplete);
    }
    var status := codec.decode(originals[STATUS_PATH].data);
    if status.None? {
      return Err(Unreadable(BadName));
    }
    if Applied(status.value) {
      return Err(AppliedTwice);
    }
    if !CompleteKit(kit) {
      return Err(KitIncomplete);
    }
    var overlay := Overlay(kit, codec.encode(WithStanzas(status.value)));
    var output := original + Compress(Cpio(order, overlay, codec));
    var result := Entries(Decompress(output), codec);
    if result.Err? {
      return Err(Unreadable(result.error));
    }
    if !Contains(result.value, overlay) {
      return Err(ValidationFailed);
    }
    out := Ok(output);
  }

  function Prepared(original: Gzip, kit: Kit, order: seq<string>, codec: Codec): Result<Gzip, PrepareFault>
    requires Enumerates(order, OVERLAY_PATHS)
  {
    match StatusText(original, codec)
    case Err(e) => Err(e)
    case Ok(status) =>
      if Applied(status) then Err(AppliedTwice)
      else if !CompleteKit(kit) then Err(KitIncomplete)
      else
        var overlay := Overlay(kit, codec.encode(WithStanzas(status)));
        var output := original + Compress(Cpio(order, overlay, codec));
        match ReadFrom(Decompress(output), 0, map[], codec)
        case Err(e) => Err(Unreadable(e))
        case Ok(files) => if Contains(files, overlay) then Ok(output) else Err(ValidationFailed)
  }

  lemma CutAfter(a: string, tail: string, s: string, k: nat)
    requires s == a + "\n" + tail && k <= |a| + 1
    ensures s[|a|] == '\n'
    ensures k == |a| + 1 ==> s[k..] == tail
    ensures k <= |a| ==> s[k..] == a[k..] + "\n" + tail
  {
  }

  /** The first line of a text with a break in it, and what is left. */
  lemma FirstLineOff(s: string, at: nat) returns (k: nat)
    requires at < |s| && s[at] == '\n'
    ensures 0 < k <= at + 1 && Lines(s) == [s[..FirstBreak(s)]] + Lines(s[k..])
  {
    var n := FirstBreak(s);
    assert n <= at;
    k := n + if s[n] == '\r' && n + 1 < |s| && s[n + 1] == '\n' then 2 else 1;
  }

  /** A line set apart by line feeds is one of the lines of the text, whatever precedes it. */
  lemma {:induction false} MiddleLine(a: string, l: string, tail: string, s: string)
    requires l in Lines(tail) && s == a + "\n" + tail
    ensures l in Lines(s)
    decreases |a|
  {
    CutAfter(a, tail, s, 0);
    var k := FirstLineOff(s, |a|);
    CutAfter(a, tail, s, k);
    if k <= |a| {
      MiddleLine(a[k..], l, tail, s[k..]);
    }
    LaterLine(s[..FirstBreak(s)], Lines(s[k..]), l);
  }

  lemma LaterLine(first: string, more: seq<string>, l: string)
    requires l == first || l in more
    ensures l in [first] + more
  {
    assert ([first] + more)[0] == first;
    if l in more {
      var i :| 0 <= i < |more| && more[i] == l;
      assert ([first] + more)[i + 1] == l;
    }
  }

  lemma Chain(a: string, b: string, c: string, tail: string, text: string)
    requires text == a + "\n" + b + "\n" + c && tail == b + "\n" + c
    ensures text == a + "\n" + tail
  {
  }

  lemma SetApart(status: string, first: string, rest: string, text: string)
    requires text == status + "\n" + first + "\n" + rest && OneLine(first)
    ensures first in Lines(text)
  {
    var tail := first + "\n" + rest;
    LinesThen(first, rest);
    LaterLine(first, Lines(rest), first);
    Chain(status, first, rest, tail, text);
    MiddleLine(status, first, tail, text);
  }

  lemma FirstAddedIsMarked()
    ensures OneLine(FIRST_ADDED) && MARK <= FIRST_ADDED
  {
    assert FIRST_ADDED[..18] == MARK;
  }

  lemma MarkedIsApplied(status: string, line: string)
    requires line in Lines(status) && MARK <= line
    ensures Applied(status)
  {
    var k :| 0 <= k < |Lines(status)| && Lines(status)[k] == line;
  }

  lemma AppendedIsApplied(status: string)
    ensures Applied(WithStanzas(status))
  {
    FirstAddedIsMarked();
    SetApart(status, FIRST_ADDED, REST_ADDED, WithStanzas(status));
    MarkedIsApplied(WithStanzas(status), FIRST_ADDED);
  }

  /** Whatever the original held: once `prepare` succeeds, it refuses its own output, with any kit. */
  lemma PrepareRunsOnce(original: Gzip, kit: Kit, order: seq<string>, kit': Kit, order': seq<string>, codec: Codec)
    requires codec.Lawful() && Enumerates(order, OVERLAY_PATHS) && Enumerates(order', OVERLAY_PATHS)
    requires Prepared(original, kit, order, codec).Ok?
    ensures Prepared(Prepared(original, kit, order, codec).value, kit', order', codec) == Err(AppliedTwice)
  {
    var text := WithStanzas(StatusText(original, codec).value);
    var output := Prepared(original, kit, order, codec).value;
    OutputStatus(original, kit, order, codec, text, output);
    AppendedIsApplied(StatusText(original, codec).value);
  }

  lemma OutputStatus(original: Gzip, kit: Kit, order: seq<string>, codec: Codec, text: string, output: Gzip)
    requires codec.Lawful() && Enumerates(order, OVERLAY_PATHS)
    requires Prepared(original, kit, order, codec) == Ok(output) &&
             text == WithStanzas(StatusText(original, codec).value)
    ensures StatusText(output, codec) == Ok(text)
  {
    var overlay := Overlay(kit, codec.encode(text));
    var files := ReadFrom(Decompress(output), 0, map[], codec).value;
    assert Contains(files, overlay);
    assert STATUS_PATH in OVERLAY_PATHS && FRONTEND_PATH in OVERLAY_PATHS;
    assert STATUS_PATH in files && FRONTEND_PATH in files;
    assert files[STATUS_PATH] == Node(0x81A4, codec.encode(text));
    assert codec.decode(codec.encode(text)) == Some(text);
  }

  lemma OverlayPathsAreStoredAsIs()
    ensures forall name :: name in OVERLAY_PATHS ==> StoredAsIs(name)
    ensures |OVERLAY_PATHS| <= 12
  {
    forall name | name in OVERLAY_PATHS ensures StoredAsIs(name) {
      assert |name| >= 2 && (name[0] == 'u' || name[0] == 'v');
      PlainStart(name);
    }
    var keys := [FRONTEND_PATH, STATUS_PATH, "usr/lib/debian-installer.d/S66rougarou-theme",
      INFO + "welcome.templates", INFO + "access.templates", INFO + "software.templates",
      INFO + "welcome.postinst", INFO + "access.postinst", INFO + "software.postinst",
      INFO + "welcome.isinstallable", INFO + "access.isinstallable", INFO + "software.isinstallable"];
    assert forall name :: name in OVERLAY_PATHS ==> name in keys;
    SetOfSeq(OVERLAY_PATHS, keys);
  }

  lemma PlainStart(name: string)
    requires |name| >= 2 && name[0] != '.' && name[0] != 'T'
    ensures StoredAsIs(name)
  {
    assert name[..2][0] == name[0] && "./"[0] == '.' && TRAILER[0] == 'T';
  }

  lemma {:induction false} SetOfSeq(keys: set<string>, names: seq<string>)
    requires forall k :: k in keys ==> k in names
    ensures |keys| <= |names|
    decreases names
  {
    if names == [] {
      assert keys == {};
    } else {
      SetOfSeq(keys - {names[0]}, names[1..]);
      assert |keys - {names[0]}| >= |keys| - 1;
    }
  }

  /**
   * On an original made of newc members and aligned padding, with a status database not yet extended and files
   * below 4 GiB, `prepare` succeeds and its output reads as the original with exactly the overlay on top.
   */
  lemma PrepareTheorem(original: Gzip, pieces: seq<Piece>, kit: Kit, order: seq<string>, codec: Codec, overlay: Files)
    requires codec.Lawful() && CompleteKit(kit) && Enumerates(order, OVERLAY_PATHS)
    requires Decompress(original) == Archive(pieces) && GoodPieces(pieces, codec)
    requires StatusText(original, codec).Ok? && !Applied(StatusText(original, codec).value)
    requires overlay == Overlay(kit, codec.encode(WithStanzas(StatusText(original, codec).value)))
    requires Fits(TRAILER, [], 0, 13, codec)
    requires forall name :: name in overlay ==> Fits(name, overlay[name].data, overlay[name].mode, 12, codec)
    ensures var out := Prepared(original, kit, order, codec);
            && out.Ok? && original <= out.value
            && ReadFrom(Decompress(out.value), 0, map[], codec) == Ok(Meaning(pieces, map[]) + overlay)
  {
    OverlayDoesFit(overlay, codec);
    var cpio := Cpio(order, overlay, codec);
    OverlayTheorem(pieces, order, overlay, codec);
    DecompressAppend(original, cpio);
    OutputIs(original, kit, order, codec, overlay, original + Compress(cpio), Meaning(pieces, map[]) + overlay);
  }

  lemma OverlayDoesFit(overlay: Files, codec: Codec)
    requires overlay.Keys == OVERLAY_PATHS && Fits(TRAILER, [], 0, 13, codec)
    requires forall name :: name in overlay ==> Fits(name, overlay[name].data, overlay[name].mode, 12, codec)
    ensures OverlayFits(overlay, codec)
  {
    OverlayPathsAreStoredAsIs();
    assert |overlay| == |overlay.Keys|;
  }

  lemma OutputIs(original: Gzip, kit: Kit, order: seq<string>, codec: Codec, overlay: Files, output: Gzip, files: Files)
    requires CompleteKit(kit) && Enumerates(order, OVERLAY_PATHS)
    requires StatusText(original, codec).Ok? && !Applied(StatusText(original, codec).value)
    requires overlay == Overlay(kit, codec.encode(WithStanzas(StatusText(original, codec).value)))
    requires output == original + Compress(Cpio(order, overlay, codec))
    requires ReadFrom(Decompress(output), 0, map[], codec) == Ok(files) && Contains(files, overlay)
    ensures Prepared(original, kit, order, codec) == Ok(output)
  {
  }

  // ----- exactly when, and nothing else ------------------------------------------------------------------

  /** One of the paths that `prepare` writes. */
  predicate IsWritten(path: string) {
    || path == "usr/lib/cdebconf/frontend/newt.so" || path == "var/lib/dpkg/status"
    || path == "usr/lib/debian-installer.d/S66rougarou-theme"
    || exists name, tail :: name in {"welcome", "access", "software"} &&
         tail in {".templates", ".postinst", ".isinstallable"} && path == "var/lib/dpkg/info/rougarou-" + name + tail
  }

  lemma WrittenName(name: string, tail: string, whole: string)
    requires name in {"welcome", "access", "software"} && tail in {".templates", ".postinst", ".isinstallable"}
    requires whole == name + tail
    ensures IsWritten(INFO + whole)
  {
    PathOf(name, tail, whole);
  }

  lemma OverlayIsWritten(path: string)
    requires path in OVERLAY_PATHS
    ensures IsWritten(path)
  {
    EndingsAre();
    WrittenName("welcome", ".templates", "welcome.templates");
    WrittenName("access", ".templates", "access.templates");
    WrittenName("software", ".templates", "software.templates");
    WrittenName("welcome", ".postinst", "welcome.postinst");
    WrittenName("access", ".postinst", "access.postinst");
    WrittenName("software", ".postinst", "software.postinst");
    WrittenName("welcome", ".isinstallable", "welcome.isinstallable");
    WrittenName("access", ".isinstallable", "access.isinstallable");
    WrittenName("software", ".isinstallable", "software.isinstallable");
  }

  /** Below 4 GiB, as newc can tell. */
  predicate Small(data: Bytes) {
    |data| < 0x1_0000_0000
  }

  predicate SmallKit(kit: Kit) {
    && Small(kit.frontend) && Small(kit.theme) && Small(kit.isinstallable)
    && (forall name :: name in kit.templates ==> Small(kit.templates[name]))
    && (forall name :: name in kit.postinst ==> Small(kit.postinst[name]))
  }

  /** Short names encode to less than that as well. */
  ghost predicate ShortNamesFit(codec: Codec) {
    forall name: string :: |name| <= 60 ==> |codec.encode(name)| + 1 < 0x1_0000_0000
  }

  lemma WrittenIsShort(path: string)
    requires path in OVERLAY_PATHS
    ensures |path| <= 60
  {
    FixedNumbers();
    TemplateNumbers();
    ScriptNumbers();
    CheckNumbers();
    assert Number(path) < 12;
  }

  lemma OverlayFitsNewc(kit: Kit, status: Bytes, codec: Codec, name: string)
    requires CompleteKit(kit) && SmallKit(kit) && Small(status) && ShortNamesFit(codec) && name in OVERLAY_PATHS
    ensures Fits(name, Overlay(kit, status)[name].data, Overlay(kit, status)[name].mode, 12, codec)
  {
    WrittenIsShort(name);
    OverlayHolds(kit, status);
  }

  /** The extended status database is small too. */
  ghost predicate SmallStatus(original: Gzip, codec: Codec) {
    StatusText(original, codec).Ok? ==>
      forall longer :: IsExtended(StatusText(original, codec).value, longer) ==> Small(codec.encode(longer))
  }

  /** All other paths read the same. */
  ghost predicate SameElsewhere(before: Files, after: Files) {
    forall path :: !IsWritten(path) ==>
      (path in after <==> path in before) && (path in before ==> after[path] == before[path])
  }

  lemma OverlayIsElsewhere(before: Files, overlay: Files)
    requires overlay.Keys == OVERLAY_PATHS
    ensures SameElsewhere(before, before + overlay)
  {
    forall path | !IsWritten(path) ensures path !in overlay {
      if path in overlay {
        OverlayIsWritten(path);
      }
    }
  }

  lemma FitAndComplete(original: Gzip, pieces: seq<Piece>, kit: Kit, order: seq<string>, codec: Codec)
    requires codec.Lawful() && ShortNamesFit(codec) && SmallKit(kit) && Enumerates(order, OVERLAY_PATHS)
    requires Decompress(original) == Archive(pieces) && GoodPieces(pieces, codec) && SmallStatus(original, codec)
    requires StatusText(original, codec).Ok? && !Applied(StatusText(original, codec).value) && CompleteKit(kit)
    ensures Prepared(original, kit, order, codec).Ok?
    ensures exists overlay: Files :: overlay.Keys == OVERLAY_PATHS &&
              Read(Prepared(original, kit, order, codec).value, codec) == Ok(Meaning(pieces, map[]) + overlay)
  {
    var status := StatusText(original, codec).value;
    var overlay := Overlay(kit, codec.encode(WithStanzas(status)));
    assert IsExtended(status, WithStanzas(status));
    forall name | name in overlay ensures Fits(name, overlay[name].data, overlay[name].mode, 12, codec) {
      OverlayFitsNewc(kit, codec.encode(WithStanzas(status)), codec, name);
    }
    assert |TRAILER| == 10;
    PrepareTheorem(original, pieces, kit, order, codec, overlay);
  }

  lemma OriginalReads(original: Gzip, pieces: seq<Piece>, codec: Codec)
    requires Decompress(original) == Archive(pieces) && GoodPieces(pieces, codec)
    ensures Read(original, codec) == Ok(Meaning(pieces, map[]))
  {
    assert [] + Archive(pieces) == Archive(pieces);
    ReadPieces([], pieces, Archive(pieces), map[], Meaning(pieces, map[]), codec);
  }

  /**
   * On an original made of newc members and aligned padding, with all files below 4 GiB: `prepare` succeeds exactly if
   * the original is fit and the kit complete; then every path it does not write reads as in the original.
   */
  lemma PreparedIff(original: Gzip, pieces: seq<Piece>, kit: Kit, order: seq<string>, codec: Codec)
    requires codec.Lawful() && ShortNamesFit(codec) && SmallKit(kit) && Enumerates(order, OVERLAY_PATHS)
    requires Decompress(original) == Archive(pieces) && GoodPieces(pieces, codec) && SmallStatus(original, codec)
    ensures Prepared(original, kit, order, codec).Ok? <==>
              !IsUnfit(original, codec) && kit.templates.Keys == kit.postinst.Keys == {"welcome", "access", "software"}
    ensures Prepared(original, kit, order, codec).Ok? ==>
              var before, after := Read(original, codec), Read(Prepared(original, kit, order, codec).value, codec);
              before.Ok? && after.Ok? && SameElsewhere(before.value, after.value)
  {
    UnfitIs(original, codec);
    if !IsUnfit(original, codec) && CompleteKit(kit) {
      FitAndComplete(original, pieces, kit, order, codec);
      OriginalReads(original, pieces, codec);
      var overlay: Files :| overlay.Keys == OVERLAY_PATHS &&
        Read(Prepared(original, kit, order, codec).value, codec) == Ok(Meaning(pieces, map[]) + overlay);
      OverlayIsElsewhere(Meaning(pieces, map[]), overlay);
    }
  }
}
