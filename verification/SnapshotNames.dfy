/** The names the controller gives its snapshots, and how it recognizes them. */
module SnapshotNames {
  import opened Wrappers
  import opened Text

  const MAX_LENGTH := 40
  const SUFFIX_LENGTH := 22  // "-YYYYMMDDHHMMSS-NNNNNN"

  datatype Moment = Moment(year: nat, month: nat, day: nat, hour: nat, minute: nat, second: nat)

  predicate ValidMoment(t: Moment) {
    1000 <= t.year < 10000 && t.month < 100 && t.day < 100 && t.hour < 100 && t.minute < 100 && t.second < 100
  }

  predicate IsLetter(c: char) { 'a' <= c <= 'z' || 'A' <= c <= 'Z' }

  function TrimDashes(s: string): (r: string)
    ensures |r| <= |s| && r <= s && (r == "" || r[|r| - 1] != '-')
  {
    if s != "" && s[|s| - 1] == '-' then TrimDashes(s[..|s| - 1]) else s
  }

  /** The configured prefix, cut to leave room for the suffix; it must begin with a letter. */
  function EffectivePrefix(configured: string): Option<string> {
    var room := MAX_LENGTH - SUFFIX_LENGTH;
    var prefix := TrimDashes(if |configured| <= room then configured else configured[..room]);
    if prefix == "" || !IsLetter(prefix[0]) then None else Some(prefix)
  }

  function TimestampText(t: Moment): (s: string)
    ensures |s| == 14 && AllDigits(s)
  {
    Padded(t.year, 4) + Padded(t.month, 2) + Padded(t.day, 2)
    + Padded(t.hour, 2) + Padded(t.minute, 2) + Padded(t.second, 2)
  }

  function NewName(configured: string, t: Moment, nowNs: nat): Option<string> {
    match EffectivePrefix(configured)
    case None => None
    case Some(prefix) => Some(prefix + "-" + TimestampText(t) + "-" + Padded(nowNs % 1_000_000, 6))
  }

  /** The timestamp and nonce of a name the controller owns. */
  function Parse(configured: string, name: string): Option<(string, string)> {
    match EffectivePrefix(configured)
    case None => None
    case Some(p) =>
      var start := p + "-";
      if !(start <= name) then None
      else
        var rest := name[|start|..];
        var dash := Find(rest, '-');
        if dash == |rest| then None
        else
          var timestamp, nonce := rest[..dash], rest[dash + 1..];
          if |timestamp| == 14 && AllDigits(timestamp) && |nonce| == 6 && AllDigits(nonce)
          then Some((timestamp, nonce)) else None
  }

  predicate IsControllerName(configured: string, name: string) { Parse(configured, name).Some? }

  /** The names the controller recognizes as its own. */
  function Mine(configured: string): string -> bool { name => IsControllerName(configured, name) }

  /** The matcher accepts exactly prefix-14 digits-6 digits, and the two parts are determined by the name. */
  lemma ParsesExactly(configured: string, name: string, timestamp: string, nonce: string)
    requires EffectivePrefix(configured).Some?
    ensures Parse(configured, name) == Some((timestamp, nonce))
            <==> && |timestamp| == 14 && AllDigits(timestamp) && |nonce| == 6 && AllDigits(nonce)
                 && name == EffectivePrefix(configured).value + "-" + timestamp + "-" + nonce
  {
    var start := EffectivePrefix(configured).value + "-";
    if AllDigits(timestamp) && name == start + timestamp + "-" + nonce {
      var rest := name[|start|..];
      assert rest == timestamp + ['-'] + nonce;
      FindIn(timestamp, '-', nonce);
      assert rest[..|timestamp|] == timestamp && rest[|timestamp| + 1..] == nonce;
    }
    if Parse(configured, name) == Some((timestamp, nonce)) {
      var rest := name[|start|..];
      var dash := Find(rest, '-');
      assert rest == timestamp + "-" + nonce;
      assert name == start + rest == start + timestamp + "-" + nonce;
    }
  }

  /** A generated name fits, is recognized, and gives back the time and the nonce it was made from. */
  lemma GeneratedNameRoundTrips(configured: string, t: Moment, nowNs: nat)
    requires EffectivePrefix(configured).Some? && ValidMoment(t)
    ensures var name := NewName(configured, t, nowNs);
      && name.Some? && |name.value| <= MAX_LENGTH
      && Parse(configured, name.value) == Some((TimestampText(t), Padded(nowNs % 1_000_000, 6)))
    ensures var s := TimestampText(t);
      t == Moment(Value(s[..4]), Value(s[4..6]), Value(s[6..8]), Value(s[8..10]), Value(s[10..12]), Value(s[12..]))
    ensures Value(Padded(nowNs % 1_000_000, 6)) == nowNs % 1_000_000
  {
    hide TrimDashes, Parse, Padded, AllDigits, Value;
    ParsesExactly(configured, NewName(configured, t, nowNs).value, TimestampText(t), Padded(nowNs % 1_000_000, 6));
    TimestampParses(t);
    Powers();
    ValueOfPadded(nowNs % 1_000_000, 6);
  }

  lemma Powers()
    ensures Pow10(2) == 100 && Pow10(4) == 10000 && Pow10(6) == 1_000_000
  {
    assert Pow10(1) == 10 && Pow10(3) == 1000 && Pow10(5) == 100_000;
  }

  lemma TimestampParses(t: Moment)
    requires ValidMoment(t)
    ensures var s := TimestampText(t);
      t == Moment(Value(s[..4]), Value(s[4..6]), Value(s[6..8]), Value(s[8..10]), Value(s[10..12]), Value(s[12..]))
  {
    hide Padded, Value, Pow10;
    Powers();
    ValueOfPadded(t.year, 4);
    ValueOfPadded(t.month, 2);
    ValueOfPadded(t.day, 2);
    ValueOfPadded(t.hour, 2);
    ValueOfPadded(t.minute, 2);
    ValueOfPadded(t.second, 2);
    var s := TimestampText(t);
    assert s[..4] == Padded(t.year, 4) && s[4..6] == Padded(t.month, 2) && s[6..8] == Padded(t.day, 2);
    assert s[8..10] == Padded(t.hour, 2) && s[10..12] == Padded(t.minute, 2) && s[12..] == Padded(t.second, 2);
  }

  /** The prefix is the first 18 characters of the configured one without the dashes they end in. */
  lemma PrefixExactly(configured: string, prefix: string)
    ensures EffectivePrefix(configured) == Some(prefix) <==>
              && prefix != "" && ('a' <= prefix[0] <= 'z' || 'A' <= prefix[0] <= 'Z') && prefix[|prefix| - 1] != '-'
              && prefix <= configured && |prefix| <= 18
              && forall i :: |prefix| <= i < |configured| && i < 18 ==> configured[i] == '-'
  {
    hide TrimDashes;
    var cut := if |configured| <= 18 then configured else configured[..18];
    TrimExactly(cut);
    var trimmed := TrimDashes(cut);
    assert trimmed <= configured;
    if prefix <= configured && |prefix| <= 18 && prefix != "" && prefix[|prefix| - 1] != '-'
       && forall i :: |prefix| <= i < |configured| && i < 18 ==> configured[i] == '-' {
      assert prefix <= cut;
      assert trimmed == cut[..|trimmed|] && prefix == cut[..|prefix|];
      assert |trimmed| == |prefix|;
    }
  }

  lemma {:induction false} TrimExactly(s: string)
    ensures forall i :: |TrimDashes(s)| <= i < |s| ==> s[i] == '-'
  {
    if s != "" && s[|s| - 1] == '-' { TrimExactly(s[..|s| - 1]); }
  }
}
