/** The ban table against the full history of rate-limit marks. */
module BanHistory {
  import opened Common
  import opened PoolSpec

  datatype Mark = Mark(ip: string, until: int)

  ghost predicate BannedBy(marks: seq<Mark>, ip: string, now: int) {
    ip != "" && exists i :: 0 <= i < |marks| && marks[i].ip == ip && now < marks[i].until
  }

  /** From `clock` on, the table answers as the history does. */
  ghost predicate Refines(bans: Bans, marks: seq<Mark>, clock: int) {
    && 0 <= clock
    && forall ip, t :: clock <= t ==> (Banned(bans, ip, t) <==> BannedBy(marks, ip, t))
  }

  lemma MarkRefines(bans: Bans, marks: seq<Mark>, clock: int, now: int, ip: string, until: int)
    requires Refines(bans, marks, clock) && clock <= now
    ensures Refines(Extended(bans, ip, until), marks + [Mark(ip, until)], now)
  {
    var bans', marks' := Extended(bans, ip, until), marks + [Mark(ip, until)];
    forall other, t | now <= t ensures Banned(bans', other, t) <==> BannedBy(marks', other, t) {
      assert Banned(bans, other, t) <==> BannedBy(marks, other, t);
      if BannedBy(marks, other, t) {
        var i :| 0 <= i < |marks| && marks[i].ip == other && t < marks[i].until;
        assert marks'[i] == marks[i];
      }
      if ip == other && t < until {
        assert marks'[|marks|].ip == other;
      }
    }
  }

  lemma SweepRefines(bans: Bans, marks: seq<Mark>, clock: int, now: int, ips: set<string>)
    requires Refines(bans, marks, clock) && clock <= now
    ensures Refines(Swept(bans, ips, now), marks, now)
  {
    forall ip, t | now <= t ensures Banned(Swept(bans, ips, now), ip, t) <==> BannedBy(marks, ip, t) {
      assert Banned(bans, ip, t) <==> BannedBy(marks, ip, t);
    }
  }

  // ---- Whole runs ----

  /** What the table undergoes: a mark at a time, or the lazy deletion of expired
      entries met while looking up some addresses. */
  datatype Event = Marked(at: int, ip: string, banFor: int) | Looked(at: int, ips: set<string>)

  predicate StillRuns(e: Event, ip: string, now: int) {
    e.Marked? && e.ip == ip && now < e.at + e.banFor
  }

  predicate InTime(events: seq<Event>) {
    && (forall i :: 0 <= i < |events| ==> 0 <= events[i].at)
    && (forall i, j :: 0 <= i < j < |events| ==> events[i].at <= events[j].at)
  }

  function TableAfter(events: seq<Event>): Bans {
    if events == [] then map[]
    else
      var bans := TableAfter(events[..|events| - 1]);
      match events[|events| - 1]
      case Marked(at, ip, banFor) => Extended(bans, ip, at + banFor)
      case Looked(at, ips) => Swept(bans, ips, at)
  }

  function MarksOf(events: seq<Event>): seq<Mark> {
    if events == [] then []
    else
      var last := events[|events| - 1];
      MarksOf(events[..|events| - 1]) + if last.Marked? then [Mark(last.ip, last.at + last.banFor)] else []
  }

  lemma {:induction false} TableRefines(events: seq<Event>, now: int)
    requires InTime(events) && 0 <= now && forall i :: 0 <= i < |events| ==> events[i].at <= now
    ensures Refines(TableAfter(events), MarksOf(events), now)
  {
    if events == [] {
      forall ip, t | now <= t ensures Banned(map[], ip, t) <==> BannedBy([], ip, t) {}
    } else {
      var last := events[|events| - 1];
      var before := events[..|events| - 1];
      TableRefines(before, last.at);
      match last
      case Marked(at, ip, banFor) =>
        MarkRefines(TableAfter(before), MarksOf(before), at, now, ip, at + banFor);
      case Looked(at, ips) =>
        SweepRefines(TableAfter(before), MarksOf(before), at, at, ips);
        assert MarksOf(events) == MarksOf(before);
    }
  }

  lemma {:induction false} MarksAreEvents(events: seq<Event>, ip: string, now: int)
    ensures BannedBy(MarksOf(events), ip, now) <==>
            ip != "" && exists i :: 0 <= i < |events| && StillRuns(events[i], ip, now)
  {
    if events != [] {
      var before := events[..|events| - 1];
      MarksAreEvents(before, ip, now);
      if BannedBy(MarksOf(before), ip, now) {
        var i :| 0 <= i < |MarksOf(before)| && MarksOf(before)[i].ip == ip && now < MarksOf(before)[i].until;
        assert MarksOf(events)[i] == MarksOf(before)[i];
        var j :| 0 <= j < |before| && StillRuns(before[j], ip, now);
        assert events[j] == before[j];
      }
      var last := events[|events| - 1];
      if last.Marked? {
        assert MarksOf(events)[|MarksOf(before)|] == Mark(last.ip, last.at + last.banFor);
      }
    }
  }

  /** An address is hidden at `now` exactly when some past mark on it still runs,
      whatever expired entries were deleted along the way. */
  lemma BansAreHistory(events: seq<Event>, ip: string, now: int)
    requires InTime(events) && 0 <= now && forall i :: 0 <= i < |events| ==> events[i].at <= now
    ensures Banned(TableAfter(events), ip, now) <==>
            ip != "" && exists i :: 0 <= i < |events| && StillRuns(events[i], ip, now)
  {
    TableRefines(events, now);
    MarksAreEvents(events, ip, now);
  }

  // ---- How long a mark bans ----

  /** The ban length: the configured one, or a longer Retry-After given as a
      positive number of seconds (0 stands for absent or unparsable). The seconds
      are turned into a 64-bit count of nanoseconds. */
  function BanFor(ipBan: int, retrySecs: int): int {
    var d := Wrap64(retrySecs * SECOND);
    if retrySecs > 0 && d > ipBan then d else ipBan
  }

  lemma NoRetryAfter(ipBan: int, retrySecs: int)
    requires retrySecs <= 0
    ensures BanFor(ipBan, retrySecs) == ipBan
  {
  }

  /** It is the maximum of the two exactly as long as the nanoseconds fit. */
  lemma BanForIsMaxIff(ipBan: int, retrySecs: int)
    requires -0x8000_0000_0000_0000 <= ipBan < 0x8000_0000_0000_0000 && retrySecs > 0
    ensures BanFor(ipBan, retrySecs) == (if retrySecs * SECOND > ipBan then retrySecs * SECOND else ipBan)
       <==> retrySecs <= 9_223_372_036
  {
    if retrySecs <= 9_223_372_036 {
      assert Wrap64(retrySecs * SECOND) == retrySecs * SECOND;
    }
  }

  /** A Retry-After one second beyond that, some 292 years, is not honoured at all. */
  lemma OverlongRetryAfterIsIgnored(ipBan: int)
    requires 0 <= ipBan < 9_223_372_037 * SECOND
    ensures BanFor(ipBan, 9_223_372_037) == ipBan < 9_223_372_037 * SECOND
  {
    assert Wrap64(9_223_372_037 * SECOND) < 0;
  }
}
