/** The script that renames raw captures into the layout the workers expect. */
module Uploader {
  import opened Wrappers
  import opened Text
  import opened Names

  /** The first run of six digits, as `re.search(r"(\d{6})")` finds it. */
  function FirstSixDigits(s: string): Option<string> {
    if |s| < 6 then None
    else if AllDigits(s[..6]) then Some(s[..6])
    else FirstSixDigits(s[1..])
  }

  /** The object key for a relative path given by its segments, or None to skip the file. */
  function DeriveMapping(prefix: string, rel: seq<string>): Option<string> {
    if |rel| != 4 then None
    else match FirstSixDigits(rel[3])
      case None => None
      case Some(time) =>
        Some(prefix + "/" + rel[2] + "/" + Upper(rel[0]) + "/" + (Upper(rel[1]) + "_" + rel[2] + time + ".pcap"))
  }

  predicate SixDigitsAt(s: string, i: nat) {
    i + 6 <= |s| && AllDigits(s[i..i + 6])
  }

  /** Found exactly when there is such a run, and then it is the first one. */
  lemma {:induction false} FirstSixDigitsFound(s: string) returns (at: nat)
    ensures FirstSixDigits(s).None? ==> forall i :: !SixDigitsAt(s, i)
    ensures FirstSixDigits(s).Some? ==>
              SixDigitsAt(s, at) && FirstSixDigits(s).value == s[at..at + 6] && forall i :: 0 <= i < at ==> !SixDigitsAt(s, i)
  {
    at := 0;
    if |s| >= 6 && !AllDigits(s[..6]) {
      var k := FirstSixDigitsFound(s[1..]);
      at := k + 1;
      assert s[0..6] == s[..6];
      forall i: nat | i > 0 ensures SixDigitsAt(s, i) <==> SixDigitsAt(s[1..], i - 1) {
        if i + 6 <= |s| { assert s[1..][i - 1..i + 5] == s[i..i + 6]; }
      }
      if FirstSixDigits(s).Some? { assert s[1..][k..k + 6] == s[at..at + 6]; }
    } else if |s| >= 6 {
      assert s[0..6] == s[..6];
    }
  }

  lemma NamePartsFree(rel: seq<string>, time: string)
    requires |rel| == 4 && AllFree(rel, '/') && AllDigits(time)
    ensures Free(rel[2], '/') && Free(Upper(rel[0]), '/') && Free(Upper(rel[1]) + "_" + rel[2] + time + ".pcap", '/')
  {
    UpperKeepsFreedom(rel[0], '/');
    UpperKeepsFreedom(rel[1], '/');
  }

  lemma MappingSegments(prefix: string, date: string, vehicle: string, name: string)
    requires Free(date, '/') && Free(vehicle, '/') && Free(name, '/')
    ensures Split(prefix + "/" + date + "/" + vehicle + "/" + name, '/') == Split(prefix, '/') + [date, vehicle, name]
  {
    JoinThree(date, vehicle, name);
    assert prefix + "/" + date + "/" + vehicle + "/" + name == Under(prefix, [date, vehicle, name]);
    UnderSplits(prefix, [date, vehicle, name]);
  }

  /** A path is mapped exactly if it has four segments and six digits in the last; the key is the prefix, the
      date, the vehicle in capitals and a name from the module in capitals, the date and the first six digits. */
  lemma MappingIs(prefix: string, rel: seq<string>) returns (at: nat)
    requires AllFree(rel, '/')
    ensures DeriveMapping(prefix, rel).Some? <==> |rel| == 4 && exists i: nat :: SixDigitsAt(rel[3], i)
    ensures DeriveMapping(prefix, rel).Some? ==>
              && SixDigitsAt(rel[3], at) && (forall i :: 0 <= i < at ==> !SixDigitsAt(rel[3], i))
              && Split(DeriveMapping(prefix, rel).value, '/')
                 == Split(prefix, '/') + [rel[2], Upper(rel[0]), Upper(rel[1]) + "_" + rel[2] + rel[3][at..at + 6] + ".pcap"]
  {
    at := 0;
    if |rel| == 4 {
      at := FirstSixDigitsFound(rel[3]);
      if FirstSixDigits(rel[3]).Some? {
        var time := rel[3][at..at + 6];
        var name := Upper(rel[1]) + "_" + rel[2] + time + ".pcap";
        NamePartsFree(rel, time);
        MappingSegments(prefix, rel[2], Upper(rel[0]), name);
        assert DeriveMapping(prefix, rel).value == prefix + "/" + rel[2] + "/" + Upper(rel[0]) + "/" + name;
      }
    }
  }

  /** Path and name round trip: the worker recovers the upper-cased vehicle from the key, and the name
      parser recovers module, date and time exactly when the module is dot-free and free of its own stamp. */
  lemma MappingRoundTrip(prefix: string, rel: seq<string>)
    requires DeriveMapping(prefix, rel).Some? && AllFree(rel, '/')
    requires |rel[2]| == 8 && AllDigits(rel[2])
    ensures var segments := Split(DeriveMapping(prefix, rel).value, '/');
            var time := FirstSixDigits(rel[3]).value;
            && |segments| >= 4
            && segments[|segments| - 2] == Upper(rel[0])
            && |time| == 6
            && (Parse(Last(segments)) == Some(Parts(Upper(rel[1]), rel[2], time[..2], time[2..4], time[4..]))
                <==> Free(rel[1], '.') && !Occurs(Upper(rel[1]), "_" + rel[2] + time))
  {
    var _ := FirstSixDigitsFound(rel[3]);
    var time := FirstSixDigits(rel[3]).value;
    var name := Upper(rel[1]) + "_" + rel[2] + time + ".pcap";
    NamePartsFree(rel, time);
    MappingSegments(prefix, rel[2], Upper(rel[0]), name);
    NameRoundTrip(Upper(rel[1]), rel[2], time);
    UpperDots(rel[1]);
  }

  lemma JoinThree(a: string, b: string, c: string)
    ensures Join([a, b, c]) == a + "/" + b + "/" + c
  {
    assert [a, b, c][1..] == [b, c] && [b, c][1..] == [c];
    assert Join([b, c]) == b + "/" + c;
  }

  lemma {:induction false} UpperDots(s: string)
    ensures Free(Upper(s), '.') <==> Free(s, '.')
  {
    if s != "" {
      UpperDots(s[1..]);
      assert Free(s, '.') <==> s[0] != '.' && Free(s[1..], '.') by { FreeCons(s, '.'); }
      assert Upper(s)[1..] == Upper(s[1..]);
      FreeCons(Upper(s), '.');
    }
  }

  lemma FreeCons(s: string, c: char)
    requires s != ""
    ensures Free(s, c) <==> s[0] != c && Free(s[1..], c)
  {
    if s[0] != c && Free(s[1..], c) {
      forall i | 0 <= i < |s| ensures s[i] != c {
        if i > 0 { assert s[i] == s[1..][i - 1]; }
      }
    }
  }
}
