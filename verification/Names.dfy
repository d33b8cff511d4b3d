/** The file-name parser and the path, key and object-name builders of the worker. */
module Names {
  import opened Wrappers
  import opened Text
  import opened Calendar

  // ---------- PcapFilenameParser ----------

  datatype Parts = Parts(moduleName: string, date: string, hours: string, minutes: string, second: string)

  /** `s[lo:hi]`: both ends clamped to the length. */
  function Clamp(s: string, lo: nat, hi: nat): string
    requires lo <= hi
  {
    if |s| <= lo then "" else if |s| <= hi then s[lo..] else s[lo..hi]
  }

  /** None is the IndexError of a name without a dot. */
  function Parse(fileName: string): Option<Parts> {
    var pieces := Split(fileName, '.');
    if |pieces| < 2 then None
    else
      var base := pieces[|pieces| - 2];
      var tail := Last(Split(base, '_'));
      Some(Parts(Delete(base, "_" + tail), Clamp(tail, 0, 8), Clamp(tail, 8, 10), Clamp(tail, 10, 12),
                 if |tail| >= 14 then Clamp(tail, 12, 14) else ""))
  }

  lemma ParsedModuleIsFree(fileName: string)
    requires Parse(fileName).Some?
    ensures Free(Parse(fileName).value.moduleName, '.')
    ensures Free(fileName, '/') ==>
              var p := Parse(fileName).value;
              AllFree([p.moduleName, p.date, p.hours, p.minutes], '/')
  {
    var pieces := Split(fileName, '.');
    var base := pieces[|pieces| - 2];
    var tail := Last(Split(base, '_'));
    PartsAreFree(fileName, '.');
    DeleteKeepsFreedom(base, "_" + tail, '.');
    if Free(fileName, '/') {
      PartsKeepFreedom(fileName, '.', '/');
      PartsKeepFreedom(base, '_', '/');
      DeleteKeepsFreedom(base, "_" + tail, '/');
    }
  }

  /** A name raises exactly if it has no dot. */
  lemma {:induction false} ParseFails(fileName: string)
    ensures Parse(fileName).None? <==> Free(fileName, '.')
  {
    if Free(fileName, '.') {
      SplitFree(fileName, '.');
    } else {
      var i :| 0 <= i < |fileName| && fileName[i] == '.';
      assert fileName == fileName[..i] + ['.'] + fileName[i + 1..];
      SplitAppend(fileName[..i], fileName[i + 1..], '.');
    }
  }

  lemma ClampIs(s: string)
    ensures Clamp(s, 0, 8) == if |s| <= 8 then s else s[..8]
    ensures Clamp(s, 8, 10) == if |s| <= 8 then "" else if |s| <= 10 then s[8..] else s[8..10]
    ensures Clamp(s, 10, 12) == if |s| <= 10 then "" else if |s| <= 12 then s[10..] else s[10..12]
    ensures |s| >= 14 ==> Clamp(s, 12, 14) == s[12..14]
  {
  }

  /** What the parser makes of any name with a dot: it looks at the part between the last two dots, or before
      the only one; the date and time are taken from what follows the last `_` in it, and what precedes is the
      module once every `_` followed by that is deleted. */
  lemma ParseIs(front: string, stem: string, ext: string, head: Option<string>, tail: string)
    requires front == "" || front[|front| - 1] == '.'
    requires Free(stem, '.') && Free(ext, '.') && Free(tail, '_')
    requires stem == if head.None? then tail else head.value + "_" + tail
    ensures Parse(front + stem + "." + ext)
            == Some(Parts(Delete(stem, "_" + tail), if |tail| <= 8 then tail else tail[..8],
                          if |tail| <= 8 then "" else if |tail| <= 10 then tail[8..] else tail[8..10],
                          if |tail| <= 10 then "" else if |tail| <= 12 then tail[10..] else tail[10..12],
                          if |tail| < 14 then "" else tail[12..14]))
  {
    LastTwo(front, stem, ext);
    LastPart(stem, head, tail);
    ClampIs(tail);
  }

  lemma LastTwo(front: string, stem: string, ext: string)
    requires (front == "" || front[|front| - 1] == '.') && Free(stem, '.') && Free(ext, '.')
    ensures var parts := Split(front + stem + "." + ext, '.');
            |parts| >= 2 && parts[|parts| - 2] == stem
  {
    SplitFree(stem, '.');
    SplitFree(ext, '.');
    var back := stem + ['.'] + ext;
    SplitAppend(stem, ext, '.');
    if front == "" {
      assert front + stem + "." + ext == back;
    } else {
      var before := front[..|front| - 1];
      assert front + stem + "." + ext == before + ['.'] + back;
      SplitAppend(before, back, '.');
    }
  }

  lemma LastPart(stem: string, head: Option<string>, tail: string)
    requires Free(tail, '_') && stem == if head.None? then tail else head.value + "_" + tail
    ensures Last(Split(stem, '_')) == tail
  {
    SplitFree(tail, '_');
    if head.Some? {
      assert stem == head.value + ['_'] + tail;
      SplitAppend(head.value, tail, '_');
    }
  }

  predicate AllDigits(s: string) {
    forall i :: 0 <= i < |s| ==> IsDigit(s[i])
  }

  /** A dot-free stem ending in `_` and digits: the digits are the time field. */
  lemma ParseStem(head: string, tail: string)
    requires Free(head, '.') && AllDigits(tail)
    ensures var p := Parse(head + "_" + tail + ".pcap");
            && p.Some?
            && p.value == Parts(Delete(head + "_" + tail, "_" + tail), Clamp(tail, 0, 8), Clamp(tail, 8, 10),
                                Clamp(tail, 10, 12), if |tail| >= 14 then Clamp(tail, 12, 14) else "")
  {
    var stem := head + "_" + tail;
    assert Free(stem, '.');
    var name := stem + ".pcap";
    assert name == stem + ['.'] + "pcap";
    SplitAppend(stem, "pcap", '.');
    SplitFree(stem, '.');
    SplitFree("pcap", '.');
    assert Split(name, '.') == [stem, "pcap"];
    assert stem == head + ['_'] + tail;
    SplitAppend(head, tail, '_');
    SplitFree(tail, '_');
    assert Last(Split(stem, '_')) == tail;
  }

  /** An occurrence across the boundary would put the separator among the digits. */
  lemma CrossingOccurrence(head: string, tail: string, i: nat)
    requires OccursAt(head + "_" + tail, "_" + tail, i) && i < |head| < i + 1 + |tail|
    ensures !AllDigits(tail)
  {
    var s, p := head + "_" + tail, "_" + tail;
    var j := |head| - i;
    assert s[i..i + |p|][j] == s[|head|] == '_';
    assert p[j] == tail[j - 1];
  }

  lemma NoOverlap(head: string, tail: string, i: nat)
    requires AllDigits(tail) && OccursAt(head + "_" + tail, "_" + tail, i) && i < |head|
    ensures OccursAt(head, "_" + tail, i)
  {
    var s, p := head + "_" + tail, "_" + tail;
    if i + |p| > |head| {
      CrossingOccurrence(head, tail, i);
    } else {
      assert s[i..i + |p|] == head[i..i + |p|];
    }
  }

  /** The time of day in a file name: HHMM or HHMMSS. */
  predicate IsTime(time: string) {
    (|time| == 4 || |time| == 6) && AllDigits(time)
  }

  /** The parser undoes `{module}_{stamp}.pcap` exactly when the module has no dot and does not itself
      contain `_{stamp}` (every occurrence is deleted, not only the last).  Without seconds in the name the
      second is the empty string. */
  lemma NameRoundTrip(moduleName: string, date: string, time: string)
    requires |date| == 8 && AllDigits(date) && IsTime(time)
    ensures Parse(moduleName + "_" + date + time + ".pcap")
            == Some(Parts(moduleName, date, time[..2], time[2..4], time[4..]))
            <==> Free(moduleName, '.') && !Occurs(moduleName, "_" + date + time)
  {
    var stamp := date + time;
    var name := moduleName + "_" + date + time + ".pcap";
    assert name == moduleName + "_" + stamp + ".pcap";
    assert "_" + date + time == "_" + stamp;
    if Free(moduleName, '.') {
      ParseStem(moduleName, stamp);
      StampFields(date, time);
      ModuleRecovered(moduleName, stamp);
    } else if Parse(name).Some? {
      ParsedModuleIsFree(name);
    }
  }

  lemma StampFields(date: string, time: string)
    requires |date| == 8 && (|time| == 4 || |time| == 6)
    ensures var stamp := date + time;
            && Clamp(stamp, 0, 8) == date && Clamp(stamp, 8, 10) == time[..2]
            && Clamp(stamp, 10, 12) == time[2..4] && Clamp(stamp, 12, 14) == time[4..]
  {
  }

  lemma ModuleRecovered(moduleName: string, stamp: string)
    requires AllDigits(stamp)
    ensures Delete(moduleName + "_" + stamp, "_" + stamp) == moduleName <==> !Occurs(moduleName, "_" + stamp)
  {
    assert moduleName + "_" + stamp == moduleName + ("_" + stamp);
    if Occurs(moduleName, "_" + stamp) {
      DeleteInside(moduleName, "_" + stamp);
    } else {
      forall i | 0 <= i < |moduleName| ensures !OccursAt(moduleName + ("_" + stamp), "_" + stamp, i) {
        if OccursAt(moduleName + "_" + stamp, "_" + stamp, i) { NoOverlap(moduleName, stamp, i); }
      }
      DeleteSuffix(moduleName, "_" + stamp);
    }
  }

  /** A module that ends in the file's own stamp loses it. */
  lemma RepeatedStampIsLost(head: string, date: string, time: string)
    requires |date| == 8 && AllDigits(date) && IsTime(time)
    ensures var m := head + ("_" + date + time);
            Parse(m + "_" + date + time + ".pcap") != Some(Parts(m, date, time[..2], time[2..4], time[4..]))
  {
    var stamp := "_" + date + time;
    var m := head + stamp;
    assert m[|head|..|head| + |stamp|] == stamp;
    assert OccursAt(m, stamp, |head|);
    NameRoundTrip(m, date, time);
  }

  // ---------- split output names ----------

  function SplitName(moduleName: string, stamp: string): string {
    moduleName + "_split_" + stamp + ".pcap"
  }

  function PlainName(moduleName: string, stamp: string): string {
    moduleName + "_" + stamp + ".pcap"
  }

  predicate IsLabel(l: string) {
    |l| == 14 && AllDigits(l)
  }

  lemma LabelIsLabel(tz: Offset, second: nat)
    ensures IsLabel(LabelOf(tz, second))
  {
    LabelShape(tz, second);
  }

  /** Parsing a split output name never gives back the module it was built from: the name is 21
      characters longer than the module and parsing removes a multiple of 15. */
  lemma SplitNameChangesModule(moduleName: string, stamp: string)
    requires Free(moduleName, '.') && IsLabel(stamp)
    ensures Parse(SplitName(moduleName, stamp)).Some?
    ensures Parse(SplitName(moduleName, stamp)).value.moduleName != moduleName
  {
    var head := moduleName + "_split";
    assert SplitName(moduleName, stamp) == head + "_" + stamp + ".pcap";
    ParseStem(head, stamp);
    var k := DeleteLength(head + "_" + stamp, "_" + stamp);
    assert |head + "_" + stamp| == |moduleName| + 21 && |"_" + stamp| == 15;
  }

  /** A downloaded file is never one of the files its own split writes. */
  lemma SourceIsNoSplitOutput(fileName: string, stamp: string)
    requires Parse(fileName).Some? && IsLabel(stamp)
    ensures fileName != SplitName(Parse(fileName).value.moduleName, stamp)
  {
    ParsedModuleIsFree(fileName);
    SplitNameChangesModule(Parse(fileName).value.moduleName, stamp);
  }

  lemma NamesByLabel(m: string, a: string, b: string)
    requires IsLabel(a) && IsLabel(b)
    ensures SplitName(m, a) == SplitName(m, b) ==> a == b
    ensures PlainName(m, a) == PlainName(m, b) ==> a == b
    ensures SplitName(m, a) != PlainName(m, b)
  {
    var s, t := SplitName(m, a), SplitName(m, b);
    assert s[|m| + 7..|m| + 21] == a && t[|m| + 7..|m| + 21] == b;
    var p, q := PlainName(m, a), PlainName(m, b);
    assert p[|m| + 1..|m| + 15] == a && q[|m| + 1..|m| + 15] == b;
  }

  // ---------- path builders ----------

  /** Storage roots, the sensor registry and the zone timestamps are shown in. */
  datatype Config = Config(cache: string, unpaired: string, storage: string,
                           typeOf: map<string, string>, tz: Offset)

  predicate ValidConfig(cfg: Config) {
    Apart(cfg.cache, cfg.unpaired) && forall m :: m in cfg.typeOf ==> Free(cfg.typeOf[m], '/')
  }

  predicate Registered(cfg: Config, moduleName: string) {
    Upper(moduleName) in cfg.typeOf
  }

  /** The lower-case sensor type directory of a module. */
  function TypeDir(cfg: Config, moduleName: string): string
    requires Registered(cfg, moduleName)
  {
    Lower(cfg.typeOf[Upper(moduleName)])
  }

  lemma TypeDirIsFree(cfg: Config, moduleName: string)
    requires ValidConfig(cfg) && Registered(cfg, moduleName)
    ensures Free(TypeDir(cfg, moduleName), '/')
  {
    LowerKeepsFreedom(cfg.typeOf[Upper(moduleName)], '/');
  }

  /** The working directory of one raw file: named after the file's minute, not the packets'. */
  function LocalSegments(cfg: Config, vehicle: string, p: Parts, file: string): seq<string>
    requires Registered(cfg, p.moduleName)
  {
    [vehicle, TypeDir(cfg, p.moduleName), p.moduleName, p.date, p.hours, p.minutes, file]
  }

  function SourcePath(cfg: Config, vehicle: string, fileName: string, p: Parts): string
    requires Registered(cfg, p.moduleName)
  {
    Under(cfg.cache, LocalSegments(cfg, vehicle, p, fileName))
  }

  function SplitPath(cfg: Config, vehicle: string, p: Parts, stamp: string): string
    requires Registered(cfg, p.moduleName)
  {
    Under(cfg.cache, LocalSegments(cfg, vehicle, p, SplitName(p.moduleName, stamp)))
  }

  /** Directory and file named after the packets' second. */
  function StampSegments(cfg: Config, vehicle: string, m: string, s: Stamp, file: string): seq<string>
    requires Registered(cfg, m)
  {
    [vehicle, TypeDir(cfg, m), m, s.date, s.hours, s.minutes, file]
  }

  function OutPath(cfg: Config, vehicle: string, m: string, s: Stamp): string
    requires Registered(cfg, m)
  {
    Under(cfg.unpaired, StampSegments(cfg, vehicle, m, s, PlainName(m, s.Label())))
  }

  function MidObject(cfg: Config, vehicle: string, m: string, s: Stamp): string
    requires Registered(cfg, m)
  {
    Under(cfg.storage, StampSegments(cfg, vehicle, m, s, SplitName(m, s.Label())))
  }

  function EndObject(cfg: Config, vehicle: string, m: string, s: Stamp): string
    requires Registered(cfg, m)
  {
    Under(cfg.storage, StampSegments(cfg, vehicle, m, s, PlainName(m, s.Label())))
  }

  function PairKey(vehicle: string, m: string, s: Stamp): string {
    vehicle + "/" + m + "_" + s.Label()
  }

  /** Two pieces get the same pair key exactly when vehicle, module and capture second agree. */
  lemma PairKeyInjective(tz: Offset, v: string, m: string, a: nat, v': string, m': string, b: nat)
    requires AllFree([v, m, v', m'], '/') && a < 0x2_0000_0000 && b < 0x2_0000_0000
    ensures PairKey(v, m, StampOf(tz, a)) == PairKey(v', m', StampOf(tz, b)) <==> v == v' && m == m' && a == b
  {
    if PairKey(v, m, StampOf(tz, a)) == PairKey(v', m', StampOf(tz, b)) {
      var k, l := LabelOf(tz, a), LabelOf(tz, b);
      LabelIsLabel(tz, a);
      LabelIsLabel(tz, b);
      assert Free(v, '/') && Free(m, '/') && Free(v', '/') && Free(m', '/') by {
        assert [v, m, v', m'][0] == v && [v, m, v', m'][1] == m && [v, m, v', m'][2] == v' && [v, m, v', m'][3] == m';
      }
      KeyShape(v, m, k);
      KeyShape(v', m', l);
      SlashSeparates(v, m + "_" + k, v', m' + "_" + l);
      StampSeparates(m, k, m', l);
      LabelInjective(tz, a, b);
    }
  }

  lemma KeyShape(v: string, m: string, k: string)
    requires Free(m, '/') && IsLabel(k)
    ensures v + "/" + m + "_" + k == v + "/" + (m + "_" + k)
    ensures Free(m + "_" + k, '/')
  {
  }

  lemma SlashSeparates(v: string, x: string, v': string, y: string)
    requires v + "/" + x == v' + "/" + y && Free(v, '/') && Free(x, '/') && Free(v', '/') && Free(y, '/')
    ensures v == v' && x == y
  {
    assert v + "/" + x == Join([v, x]) by { assert [v, x][1..] == [x]; }
    assert v' + "/" + y == Join([v', y]) by { assert [v', y][1..] == [y]; }
    JoinInjective([v, x], [v', y]);
    assert [v, x][0] == [v', y][0] && [v, x][1] == [v', y][1];
  }

  lemma StampSeparates(m: string, k: string, m': string, l: string)
    requires m + "_" + k == m' + "_" + l && |k| == |l|
    ensures m == m' && k == l
  {
    var x, y := m + "_" + k, m' + "_" + l;
    assert x[|x| - |k|..] == k && y[|y| - |l|..] == l;
    assert x[..|x| - |k| - 1] == m && y[..|y| - |l| - 1] == m';
  }

  lemma StampSegmentsFree(cfg: Config, v: string, m: string, second: nat)
    requires ValidConfig(cfg) && Registered(cfg, m) && Free(v, '/') && Free(m, '/')
    ensures var s := StampOf(cfg.tz, second);
            && AllFree(StampSegments(cfg, v, m, s, SplitName(m, s.Label())), '/')
            && AllFree(StampSegments(cfg, v, m, s, PlainName(m, s.Label())), '/')
  {
    var s := StampOf(cfg.tz, second);
    TypeDirIsFree(cfg, m);
    LabelFields(cfg.tz, second);
    LabelIsLabel(cfg.tz, second);
    assert Free(s.Label(), '/');
    assert Free(s.date, '/') && Free(s.hours, '/') && Free(s.minutes, '/');
  }

  /** Object names tell vehicle, module, second and the kind of piece apart, so no upload of one
      (vehicle, module, second) and kind replaces an object of another. */
  lemma ObjectsInjective(cfg: Config, v: string, m: string, a: nat, v': string, m': string, b: nat)
    requires ValidConfig(cfg) && Registered(cfg, m) && Registered(cfg, m')
    requires Free(v, '/') && Free(m, '/') && Free(v', '/') && Free(m', '/')
    requires a < 0x2_0000_0000 && b < 0x2_0000_0000
    ensures var s, t := StampOf(cfg.tz, a), StampOf(cfg.tz, b);
            && (MidObject(cfg, v, m, s) == MidObject(cfg, v', m', t) <==> v == v' && m == m' && a == b)
            && (EndObject(cfg, v, m, s) == EndObject(cfg, v', m', t) <==> v == v' && m == m' && a == b)
            && MidObject(cfg, v, m, s) != EndObject(cfg, v', m', t)
  {
    var s, t := StampOf(cfg.tz, a), StampOf(cfg.tz, b);
    LabelIsLabel(cfg.tz, a);
    LabelIsLabel(cfg.tz, b);
    StampSegmentsFree(cfg, v, m, a);
    StampSegmentsFree(cfg, v', m', b);
    var sa, sb := StampSegments(cfg, v, m, s, SplitName(m, s.Label())), StampSegments(cfg, v', m', t, SplitName(m', t.Label()));
    var pa, pb := StampSegments(cfg, v, m, s, PlainName(m, s.Label())), StampSegments(cfg, v', m', t, PlainName(m', t.Label()));
    if Under(cfg.storage, sa) == Under(cfg.storage, sb) { SameStampFile(cfg, sa, sb, a, b, m); }
    if Under(cfg.storage, pa) == Under(cfg.storage, pb) { SameStampFile(cfg, pa, pb, a, b, m); }
    NamesByLabel(m, s.Label(), t.Label());
    if Under(cfg.storage, sa) == Under(cfg.storage, pb) { SameFileName(cfg, sa, pb); }
  }

  /** The names of what is uploaded, merged and paired, segment by segment.  The directories are the digits of
      the packets' time. */
  lemma StampPathsAre(cfg: Config, v: string, m: string, second: nat)
    requires ValidConfig(cfg) && Registered(cfg, m) && Free(v, '/') && Free(m, '/')
    ensures var s, l, dir := StampOf(cfg.tz, second), LabelOf(cfg.tz, second), Lower(cfg.typeOf[Upper(m)]);
            && |l| == 14
            && Split(MidObject(cfg, v, m, s), '/') == Split(cfg.storage, '/')
                 + [v, dir, m, l[..8], l[8..10], l[10..12], m + "_split_" + l + ".pcap"]
            && Split(EndObject(cfg, v, m, s), '/') == Split(cfg.storage, '/')
                 + [v, dir, m, l[..8], l[8..10], l[10..12], m + "_" + l + ".pcap"]
            && Split(OutPath(cfg, v, m, s), '/') == Split(cfg.unpaired, '/')
                 + [v, dir, m, l[..8], l[8..10], l[10..12], m + "_" + l + ".pcap"]
            && Split(PairKey(v, m, s), '/') == [v, m + "_" + l]
  {
    var s, l := StampOf(cfg.tz, second), LabelOf(cfg.tz, second);
    StampSegmentsFree(cfg, v, m, second);
    LabelIsLabel(cfg.tz, second);
    LabelFields(cfg.tz, second);
    assert s.Label() == l;
    UnderSplits(cfg.storage, StampSegments(cfg, v, m, s, SplitName(m, l)));
    UnderSplits(cfg.storage, StampSegments(cfg, v, m, s, PlainName(m, l)));
    UnderSplits(cfg.unpaired, StampSegments(cfg, v, m, s, PlainName(m, l)));
    KeyShape(v, m, l);
    KeySegments(v, m + "_" + l);
  }

  lemma KeySegments(v: string, name: string)
    requires Free(v, '/') && Free(name, '/')
    ensures Split(v + "/" + name, '/') == [v, name]
  {
    SplitFree(v, '/');
    SplitFree(name, '/');
    SplitAppend(v, name, '/');
    assert v + ['/'] + name == v + "/" + name;
  }

  /** The names in the working directory; its directories are the digits of the file's own name. */
  lemma LocalPathsAre(cfg: Config, v: string, fileName: string, l: string)
    requires ValidConfig(cfg) && Free(v, '/') && Free(fileName, '/') && IsLabel(l)
    requires Parse(fileName).Some? && Registered(cfg, Parse(fileName).value.moduleName)
    ensures var p := Parse(fileName).value;
            var dir := Lower(cfg.typeOf[Upper(p.moduleName)]);
            && Split(SourcePath(cfg, v, fileName, p), '/') == Split(cfg.cache, '/')
                 + [v, dir, p.moduleName, p.date, p.hours, p.minutes, fileName]
            && Split(SplitPath(cfg, v, p, l), '/') == Split(cfg.cache, '/')
                 + [v, dir, p.moduleName, p.date, p.hours, p.minutes, p.moduleName + "_split_" + l + ".pcap"]
  {
    var p := Parse(fileName).value;
    LocalSegmentsFree(cfg, v, fileName, fileName);
    LocalSegmentsFree(cfg, v, fileName, SplitName(p.moduleName, l));
    UnderSplits(cfg.cache, LocalSegments(cfg, v, p, fileName));
    UnderSplits(cfg.cache, LocalSegments(cfg, v, p, SplitName(p.moduleName, l)));
  }

  lemma LocalSegmentsFree(cfg: Config, v: string, fileName: string, file: string)
    requires ValidConfig(cfg) && Free(v, '/') && Free(fileName, '/')
    requires Parse(fileName).Some? && Registered(cfg, Parse(fileName).value.moduleName)
    ensures Free(Parse(fileName).value.moduleName, '/')
    ensures Free(file, '/') ==> AllFree(LocalSegments(cfg, v, Parse(fileName).value, file), '/')
  {
    var p := Parse(fileName).value;
    ParsedModuleIsFree(fileName);
    TypeDirIsFree(cfg, p.moduleName);
    assert AllFree([p.moduleName, p.date, p.hours, p.minutes], '/');
    assert [p.moduleName, p.date, p.hours, p.minutes][0] == p.moduleName && [p.moduleName, p.date, p.hours, p.minutes][1] == p.date
        && [p.moduleName, p.date, p.hours, p.minutes][2] == p.hours && [p.moduleName, p.date, p.hours, p.minutes][3] == p.minutes;
  }

  lemma SameFileName(cfg: Config, x: seq<string>, y: seq<string>)
    requires |x| == 7 && |y| == 7 && AllFree(x, '/') && AllFree(y, '/')
    requires Under(cfg.storage, x) == Under(cfg.storage, y)
    ensures x[2] == y[2] && x[6] == y[6]
  {
    UnderInjective(cfg.storage, x, y);
  }

  lemma SameStampFile(cfg: Config, x: seq<string>, y: seq<string>, a: nat, b: nat, m: string)
    requires |x| == 7 && |y| == 7 && AllFree(x, '/') && AllFree(y, '/')
    requires Under(cfg.storage, x) == Under(cfg.storage, y)
    requires x[2] == m && a < 0x2_0000_0000 && b < 0x2_0000_0000
    requires var k, l := LabelOf(cfg.tz, a), LabelOf(cfg.tz, b);
             || (x[6] == SplitName(x[2], k) && y[6] == SplitName(y[2], l))
             || (x[6] == PlainName(x[2], k) && y[6] == PlainName(y[2], l))
    ensures x[0] == y[0] && x[2] == y[2] && a == b
  {
    UnderInjective(cfg.storage, x, y);
    LabelIsLabel(cfg.tz, a);
    LabelIsLabel(cfg.tz, b);
    NamesByLabel(m, LabelOf(cfg.tz, a), LabelOf(cfg.tz, b));
    LabelInjective(cfg.tz, a, b);
  }

  /** The merge output never is one of the local pieces or sources it could be made from. */
  lemma OutPathIsNotLocal(cfg: Config, v: string, m: string, s: Stamp, v': string, p: Parts, file: string)
    requires ValidConfig(cfg) && Registered(cfg, m) && Registered(cfg, p.moduleName)
    ensures OutPath(cfg, v, m, s) != Under(cfg.cache, LocalSegments(cfg, v', p, file))
  {
    var xs, ys := LocalSegments(cfg, v', p, file), StampSegments(cfg, v, m, s, PlainName(m, s.Label()));
    if Under(cfg.cache, xs) == Under(cfg.unpaired, ys) {
      SharedPathNotApart(cfg.cache, xs, cfg.unpaired, ys);
    }
  }
}
