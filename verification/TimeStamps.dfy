/** The time stamp of a record in doubles, and grouping by its whole second. */
module TimeStamps {
  import opened PcapFormat
  import opened FloatSecond
  import opened Partition

  ghost predicate StampThrough(h: PacketHeader, q: real, t: real) {
    RoundsTo(h.caputime as real / 1000000.0, q) && RoundsTo(h.captime as real + q, t)
  }

  /** `captime + caputime / 1e6`: two roundings. */
  ghost predicate StampDouble(h: PacketHeader, t: real) {
    exists q :: StampThrough(h, q, t)
  }

  /** The second that everything is grouped by is the integer part of the record's time stamp. */
  lemma SecondIsTruncatedStamp(r: Record, t: real)
    requires WellFormed(r) && StampDouble(r.header, t)
    ensures SecondOf(r) == Truncate(t)
  {
    SecondBound(r);
    var q :| StampThrough(r.header, q, t);
    TimeStampSecondIsExact(r.header.captime, r.header.caputime, q, t);
  }

  /** `stamps` are the records' time stamps. */
  ghost predicate StampsOf(rs: seq<Record>, stamps: seq<real>) {
    |stamps| == |rs| && forall i :: 0 <= i < |rs| ==> StampDouble(rs[i].header, stamps[i])
  }

  /** The records whose time stamp truncates to `s`, in order. */
  function ByStamp(rs: seq<Record>, stamps: seq<real>, s: int): seq<Record>
    requires |rs| == |stamps|
  {
    if rs == [] then []
    else (if Truncate(stamps[0]) == s then [rs[0]] else []) + ByStamp(rs[1..], stamps[1..], s)
  }

  lemma {:induction false} GroupIsByStamp(rs: seq<Record>, stamps: seq<real>, s: nat)
    requires AllWellFormed(rs) && StampsOf(rs, stamps)
    ensures Group(rs, s) == ByStamp(rs, stamps, s)
  {
    if rs != [] {
      SecondIsTruncatedStamp(rs[0], stamps[0]);
      GroupIsByStamp(rs[1..], stamps[1..], s);
    }
  }

  predicate HasKey(groups: map<nat, seq<Record>>, s: int) {
    s >= 0 && s in groups
  }

  /** The groups of a capture are those of the truncated time stamps: a key for each that occurs, and under it
      the records with that one, in order. */
  ghost predicate GroupedByStamp(rs: seq<Record>, stamps: seq<real>, groups: map<nat, seq<Record>>) {
    && |rs| == |stamps|
    && (forall i :: 0 <= i < |rs| ==> HasKey(groups, Truncate(stamps[i])))
    && (forall s :: s in groups ==> groups[s] == ByStamp(rs, stamps, s) && groups[s] != [])
  }

  lemma StampHasKey(rs: seq<Record>, stamps: seq<real>, groups: map<nat, seq<Record>>, i: nat)
    requires AllWellFormed(rs) && StampsOf(rs, stamps) && i < |rs|
    requires groups.Keys == Seconds(rs)
    ensures HasKey(groups, Truncate(stamps[i]))
  {
    SecondIsTruncatedStamp(rs[i], stamps[i]);
    assert SecondOf(rs[i]) in groups.Keys;
  }

  lemma KeyIsByStamp(rs: seq<Record>, stamps: seq<real>, s: nat)
    requires AllWellFormed(rs) && StampsOf(rs, stamps) && s in Seconds(rs)
    ensures Group(rs, s) == ByStamp(rs, stamps, s) && Group(rs, s) != []
  {
    GroupIsByStamp(rs, stamps, s);
    GroupMembers(rs, s);
  }

  lemma GroupsAreByStamp(rs: seq<Record>, stamps: seq<real>, groups: map<nat, seq<Record>>)
    requires AllWellFormed(rs) && StampsOf(rs, stamps)
    requires groups.Keys == Seconds(rs) && forall s :: s in groups ==> groups[s] == Group(rs, s)
    ensures GroupedByStamp(rs, stamps, groups)
  {
    forall i | 0 <= i < |rs| ensures HasKey(groups, Truncate(stamps[i])) {
      StampHasKey(rs, stamps, groups, i);
    }
    forall s | s in groups ensures groups[s] == ByStamp(rs, stamps, s) && groups[s] != [] {
      KeyIsByStamp(rs, stamps, s);
    }
  }

  /** The same whatever the roundings were. */
  ghost predicate GroupedByStamps(rs: seq<Record>, groups: map<nat, seq<Record>>) {
    AllWellFormed(rs) ==> forall stamps :: StampsOf(rs, stamps) ==> GroupedByStamp(rs, stamps, groups)
  }

  lemma GroupsAreByStamps(rs: seq<Record>, groups: map<nat, seq<Record>>)
    requires groups.Keys == Seconds(rs) && forall s :: s in groups ==> groups[s] == Group(rs, s)
    ensures GroupedByStamps(rs, groups)
  {
    forall stamps | AllWellFormed(rs) && StampsOf(rs, stamps) ensures GroupedByStamp(rs, stamps, groups) {
      GroupsAreByStamp(rs, stamps, groups);
    }
  }
}
