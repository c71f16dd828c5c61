/**
 * Track calibration: the pit-lane time loss and tyre degradation multiplier
 * of a venue, looked up by a case-insensitive substring match against a
 * fixed, ordered venue table, with a default for unknown venues.
 */
module TrackCalibration {

  /** Seconds lost in the pit lane and the multiplier applied to tyre wear. */
  datatype TrackConstants = TrackConstants(pitLoss: real, degFactor: real)

  datatype TrackEntry = TrackEntry(name: string, constants: TrackConstants)

  /** The venue table, in the order in which it is searched. */
  const TRACK_DB: seq<TrackEntry> := [
    TrackEntry("Monaco", TrackConstants(25.0, 0.8)),
    TrackEntry("Monza", TrackConstants(24.0, 0.7)),
    TrackEntry("Silverstone", TrackConstants(23.0, 1.1)),
    TrackEntry("Bahrain", TrackConstants(22.5, 1.4)),
    TrackEntry("Spa", TrackConstants(21.0, 1.0)),
    TrackEntry("Montreal", TrackConstants(18.0, 0.9)),
    TrackEntry("Suzuka", TrackConstants(22.0, 1.2)),
    TrackEntry("Singapore", TrackConstants(28.0, 0.9))
  ]

  /** The constants used for a venue the table does not know. */
  const FALLBACK: TrackConstants := TrackConstants(22.0, 1.0)

  // ---------------------------------------------------------------------
  // Case folding and substring search
  // ---------------------------------------------------------------------

  predicate IsUpper(c: char)
  {
    'A' <= c <= 'Z'
  }

  /** Lower-casing of one character: ASCII capitals map to their small letters, all else is kept. */
  function LowerChar(c: char): (d: char)
    ensures !IsUpper(d)
    ensures IsUpper(c) ==> d as int == c as int + 32
    ensures !IsUpper(c) ==> d == c
  {
    if IsUpper(c) then (c as int + 32) as char else c
  }

  /** Lower-casing of a string, character by character. */
  function Lower(s: string): string
  {
    seq(|s|, i requires 0 <= i < |s| => LowerChar(s[i]))
  }

  /** A lower-cased string has no capitals, and lower-casing it again changes nothing. */
  lemma LowerIsIdempotent(s: string)
    ensures forall i :: 0 <= i < |Lower(s)| ==> !IsUpper(Lower(s)[i])
    ensures Lower(Lower(s)) == Lower(s)
  {
    assert forall i :: 0 <= i < |s| ==> Lower(Lower(s))[i] == Lower(s)[i];
  }

  /** `needle` occurs in `hay` starting at position k. */
  predicate OccursAt(needle: string, hay: string, k: int)
  {
    0 <= k && k + |needle| <= |hay| && hay[k..k + |needle|] == needle
  }

  /** `needle` occurs somewhere in `hay`: the `in` test on strings. */
  predicate Contains(hay: string, needle: string)
  {
    exists k | 0 <= k <= |hay| - |needle| :: OccursAt(needle, hay, k)
  }

  /** Whether the table entry's name occurs in the venue name, ignoring case. */
  predicate Matches(entry: TrackEntry, venue: string)
  {
    Contains(Lower(venue), Lower(entry.name))
  }

  // ---------------------------------------------------------------------
  // The lookup
  // ---------------------------------------------------------------------

  /**
   * The constants of the first entry of `db` that matches the venue, or the
   * fallback; when every row of `db` is in range, so is the result.
   */
  function FirstMatch(db: seq<TrackEntry>, venue: string): (c: TrackConstants)
    ensures RowsInRange(db) ==> InRange(c)
  {
    if |db| == 0 then FALLBACK
    else if Matches(db[0], venue) then db[0].constants
    else
      assert RowsInRange(db) ==> RowsInRange(db[1..]) by {
        if RowsInRange(db) {
          forall i | 0 <= i < |db| - 1 ensures db[1..][i] == db[i + 1] { }
        }
      }
      FirstMatch(db[1..], venue)
  }

  /**
   * The constants of a venue: every venue gets a pit loss between 18 and 28
   * seconds and a degradation factor between 0.7 and 1.4.
   */
  function TrackConstantsOf(venue: string): (c: TrackConstants)
    ensures 18.0 <= c.pitLoss <= 28.0 && 0.7 <= c.degFactor <= 1.4
  {
    assert RowsInRange(TRACK_DB);
    FirstMatch(TRACK_DB, venue)
  }

  /**
   * The lookup returns the constants of the first matching entry, in
   * table order, and the fallback when no entry matches.
   */
  lemma {:induction false} FirstMatchIsFirst(db: seq<TrackEntry>, venue: string)
    ensures (forall i :: 0 <= i < |db| ==> !Matches(db[i], venue)) ==> FirstMatch(db, venue) == FALLBACK
    ensures forall i :: 0 <= i < |db| && Matches(db[i], venue)
                        && (forall j :: 0 <= j < i ==> !Matches(db[j], venue))
                        ==> FirstMatch(db, venue) == db[i].constants
  {
    if |db| > 0 {
      FirstMatchIsFirst(db[1..], venue);
      forall i | 0 < i < |db| && Matches(db[i], venue) && (forall j :: 0 <= j < i ==> !Matches(db[j], venue))
        ensures FirstMatch(db, venue) == db[i].constants
      {
        assert !Matches(db[0], venue);
        assert db[1..][i - 1] == db[i];
        forall j | 0 <= j < i - 1 ensures !Matches(db[1..][j], venue) {
          assert db[1..][j] == db[j + 1];
        }
      }
      if forall i :: 0 <= i < |db| ==> !Matches(db[i], venue) {
        assert !Matches(db[0], venue);
        forall j | 0 <= j < |db| - 1 ensures !Matches(db[1..][j], venue) {
          assert db[1..][j] == db[j + 1];
        }
      }
    }
  }

  /** The result is always one row of the table or the fallback. */
  lemma {:induction false} FirstMatchIsARow(db: seq<TrackEntry>, venue: string)
    ensures FirstMatch(db, venue) == FALLBACK
         || exists i :: 0 <= i < |db| && FirstMatch(db, venue) == db[i].constants
  {
    if |db| > 0 && !Matches(db[0], venue) {
      FirstMatchIsARow(db[1..], venue);
      if FirstMatch(db[1..], venue) != FALLBACK {
        var i :| 0 <= i < |db| - 1 && FirstMatch(db[1..], venue) == db[1..][i].constants;
        assert db[1..][i] == db[i + 1];
      }
    }
  }

  /** Pit loss in [18, 28] seconds and degradation factor in [0.7, 1.4]. */
  predicate InRange(c: TrackConstants)
  {
    18.0 <= c.pitLoss <= 28.0 && 0.7 <= c.degFactor <= 1.4
  }

  /** Every row of the table is in range. */
  predicate RowsInRange(db: seq<TrackEntry>)
  {
    forall i :: 0 <= i < |db| ==> InRange(db[i].constants)
  }

  /** Venue names that agree after lower-casing get the same constants. */
  lemma {:induction false} CaseInsensitive(db: seq<TrackEntry>, venue1: string, venue2: string)
    requires Lower(venue1) == Lower(venue2)
    ensures FirstMatch(db, venue1) == FirstMatch(db, venue2)
  {
    if |db| > 0 {
      CaseInsensitive(db[1..], venue1, venue2);
    }
  }

  // ---------------------------------------------------------------------
  // Examples
  // ---------------------------------------------------------------------

  /** A venue that starts with an entry's name matches that entry. */
  lemma PrefixMatches(entry: TrackEntry, venue: string)
    requires |entry.name| <= |venue| && venue[..|entry.name|] == entry.name
    ensures Matches(entry, venue)
  {
    var n := Lower(entry.name);
    var v := Lower(venue);
    assert v[0..|n|] == n;
    assert OccursAt(n, v, 0);
  }

  /** "Monaco Grand Prix" gets Monaco's constants. */
  lemma MonacoGrandPrix()
    ensures TrackConstantsOf("Monaco Grand Prix") == TrackConstants(25.0, 0.8)
  {
    var v := "Monaco Grand Prix";
    assert TRACK_DB[0].name == "Monaco";
    assert v[..6] == "Monaco";
    PrefixMatches(TRACK_DB[0], v);
  }

  /** A text that lacks one of a name's letters does not contain the name. */
  lemma AbsentLetter(hay: string, needle: string, p: int)
    requires 0 <= p < |needle| && needle[p] !in hay
    ensures !Contains(hay, needle)
  {
    forall k | 0 <= k <= |hay| - |needle| ensures !OccursAt(needle, hay, k) {
      assert hay[k..k + |needle|][p] == hay[k + p];
    }
  }

  /** The lower-cased names of the four entries ahead of Spa. */
  lemma EarlierNamesLowered()
    ensures Lower(TRACK_DB[0].name) == "monaco" && Lower(TRACK_DB[1].name) == "monza"
    ensures Lower(TRACK_DB[2].name) == "silverstone" && Lower(TRACK_DB[3].name) == "bahrain"
  {
  }

  lemma SpanishGrandPrixLowered()
    ensures Lower("Spanish Grand Prix") == "spanish grand prix"
  {
  }

  /** Letters of the earlier names that "Spanish Grand Prix" does not contain. */
  lemma SpanishGrandPrixLetters()
    ensures 'm' !in "spanish grand prix" && 'v' !in "spanish grand prix" && 'b' !in "spanish grand prix"
  {
  }

  /** None of the four entries ahead of Spa matches "Spanish Grand Prix". */
  lemma SpanishGrandPrixSkipsEarlierEntries()
    ensures forall j :: 0 <= j < 4 ==> !Matches(TRACK_DB[j], "Spanish Grand Prix")
  {
    SpanishGrandPrixLowered();
    SpanishGrandPrixLetters();
    EarlierNamesLowered();
    var hay := "spanish grand prix";
    AbsentLetter(hay, "monaco", 0);
    AbsentLetter(hay, "monza", 0);
    AbsentLetter(hay, "silverstone", 3);
    AbsentLetter(hay, "bahrain", 0);
  }

  /**
   * "Spanish Grand Prix" gets the constants of Spa, the first entry whose
   * name it contains: the match is on substrings, not on whole words.
   */
  lemma SpanishGrandPrixMatchesSpa()
    ensures TrackConstantsOf("Spanish Grand Prix") == TrackConstants(21.0, 1.0)
  {
    var v := "Spanish Grand Prix";
    assert TRACK_DB[4].name == "Spa" && v[..3] == "Spa";
    PrefixMatches(TRACK_DB[4], v);
    SpanishGrandPrixSkipsEarlierEntries();
    FirstMatchIsFirst(TRACK_DB, v);
  }

  /**
   * The venue lookup as a search loop: the first table entry, in order,
   * whose lower-cased name occurs in the lower-cased venue wins.
   */
  method GetTrackConstants(venueName: string) returns (c: TrackConstants)
    ensures c == TrackConstantsOf(venueName)
  {
    var venue := Lower(venueName);
    for i := 0 to |TRACK_DB|
      invariant FirstMatch(TRACK_DB[i..], venueName) == TrackConstantsOf(venueName)
    {
      var entry := TRACK_DB[i];
      if Contains(venue, Lower(entry.name)) {
        return entry.constants;
      }
      assert TRACK_DB[i..][1..] == TRACK_DB[i + 1..];
    }
    c := FALLBACK;
  }
}
