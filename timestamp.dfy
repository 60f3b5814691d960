/** The text step of the create path's timestamp conversion: `iso.slice(0, 19).replace("T", " ")`.
    The instant arithmetic before it (`new Date`, `getTimezoneOffset`, `toISOString`) is not modelled
    here; the view receives it as a parameter. */
module Timestamp {

  /** `s.slice(0, n)`: the first `n` characters, or all of `s` when it is shorter. */
  function Prefix(s: string, n: nat): (r: string)
    ensures |r| == if |s| < n then |s| else n
    ensures r <= s
  {
    if |s| < n then s else s[..n]
  }

  /** The position of the first occurrence of `c` in `s`. */
  function FirstIndex(s: string, c: char): (k: nat)
    requires c in s
    ensures k < |s| && s[k] == c
    ensures forall j :: 0 <= j < k ==> s[j] != c
  {
    if s[0] == c then 0
    else
      assert c in s[1..] by { assert s == [s[0]] + s[1..]; }
      1 + FirstIndex(s[1..], c)
  }

  /** `s.replace(from, to)` with a one-character string pattern: only the first occurrence is replaced. */
  function ReplaceFirst(s: string, from: char, to: char): (r: string)
    ensures from !in s ==> r == s
    ensures from in s ==> r == s[FirstIndex(s, from) := to]
  {
    if s == [] then []
    else if s[0] == from then [to] + s[1..]
    else
      assert from in s[1..] <==> from in s by { assert s == [s[0]] + s[1..]; }
      [s[0]] + ReplaceFirst(s[1..], from, to)
  }

  /** The timestamp text sent to the backend, from the ISO string of the shifted instant: its first 19
      characters, with the first `T` among them turned into a space and every other character kept. */
  function OracleTimestamp(iso: string): (r: string)
    ensures |r| == if |iso| < 19 then |iso| else 19
    ensures forall i :: 0 <= i < |r| ==> r[i] == iso[i] || (iso[i] == 'T' && r[i] == ' ')
    ensures forall i :: 0 <= i < |r| && iso[i] == 'T' && r[i] == ' ' ==> forall j :: 0 <= j < i ==> r[j] == iso[j]
    ensures 'T' !in Prefix(iso, 19) ==> r == Prefix(iso, 19)
    ensures 'T' in Prefix(iso, 19) ==> r == Prefix(iso, 19)[FirstIndex(Prefix(iso, 19), 'T') := ' ']
  {
    ReplaceFirst(Prefix(iso, 19), 'T', ' ')
  }

  predicate IsDigit(c: char) {
    '0' <= c <= '9'
  }

  /** The layout of `toISOString`'s output for years 0 to 9999; `d` stands for a decimal digit. */
  const IsoLayout: string := "dddd-dd-ddTdd:dd:dd.dddZ"

  /** `iso` has the shape `YYYY-MM-DDTHH:mm:ss.sssZ`. */
  predicate IsIsoInstant(iso: string) {
    |iso| == |IsoLayout| &&
    forall i :: 0 <= i < |iso| ==> if IsoLayout[i] == 'd' then IsDigit(iso[i]) else iso[i] == IsoLayout[i]
  }

  /** When the only `T` among the first eleven characters is the separator at position 10, the text
      sent is the date, one space, and the next eight characters. */
  lemma OracleTimestampSplit(iso: string)
    requires |iso| >= 19 && iso[10] == 'T'
    requires forall j :: 0 <= j < 10 ==> iso[j] != 'T'
    ensures OracleTimestamp(iso) == iso[..10] + " " + iso[11..19]
  {
  }

  /** For an ISO instant the text sent is its date, one space, and its time to the second. */
  lemma OracleTimestampOfIso(iso: string)
    requires IsIsoInstant(iso)
    ensures OracleTimestamp(iso) == iso[..10] + " " + iso[11..19]
    ensures |OracleTimestamp(iso)| == 19
  {
    assert iso[10] == 'T' by { assert IsoLayout[10] == 'T'; }
    forall j | 0 <= j < 10 ensures iso[j] != 'T' {
      assert IsoLayout[j] != 'T';
    }
    OracleTimestampSplit(iso);
  }

  /** An ISO string split at its separator: a ten-character date without `T`, then an eight-character
      time, then anything (the fraction and the zone) is sent as the date, one space and the time. */
  lemma OracleTimestampOfParts(date: string, time: string, rest: string)
    requires |date| == 10 && 'T' !in date && |time| == 8
    ensures OracleTimestamp(date + "T" + time + rest) == date + " " + time
  {
    var iso := date + "T" + time + rest;
    forall j | 0 <= j < 10 ensures iso[j] != 'T' {
      assert iso[j] == date[j];
    }
    OracleTimestampSplit(iso);
    assert iso[..10] == date && iso[11..19] == time;
  }

  /** 2024-06-01T09:30 entered on a host at UTC-5. `new Date` reads it as local time, the instant
      14:30Z; `getTimezoneOffset()` is +300 minutes there, and subtracting it gives the instant 09:30Z,
      whose ISO string shows the local wall clock. The text sent is therefore the local time, not UTC. */
  lemma OracleTimestampExample()
    ensures OracleTimestamp("2024-06-01" + "T" + "09:30:00" + ".000Z") == "2024-06-01" + " " + "09:30:00"
  {
    OracleTimestampOfParts("2024-06-01", "09:30:00", ".000Z");
  }
}
