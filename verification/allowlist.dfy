/** The channel allow-list: parsed once at start-up from the comma-separated
    `ALLOWED_CHANNEL_ID` setting; an empty list means "no restriction". */
module AllowList {
  import opened JsValues
  import opened Strings

  /** Every piece trimmed, position by position. */
  function TrimAll(pieces: seq<string>): (r: seq<string>)
    ensures |r| == |pieces|
    ensures forall i :: 0 <= i < |r| ==> r[i] == Trim(pieces[i])
  {
    if pieces == [] then [] else [Trim(pieces[0])] + TrimAll(pieces[1..])
  }

  /** The non-empty entries, in their original order. */
  function KeepNonEmpty(xs: seq<string>): (r: seq<string>)
    ensures |r| <= |xs|
    ensures forall i :: 0 <= i < |r| ==> r[i] != ""
    ensures forall x :: x in r <==> x in xs && x != ""
  {
    if xs == [] then []
    else if xs[0] == "" then KeepNonEmpty(xs[1..])
    else [xs[0]] + KeepNonEmpty(xs[1..])
  }

  /** Filtering a single entry keeps it exactly when it is non-empty. */
  lemma KeepNonEmptySingle(x: string)
    ensures KeepNonEmpty([x]) == if x == "" then [] else [x]
  {
    assert [x][1..] == [];
  }

  /** Filtering distributes over concatenation: the kept entries keep their
      order and their repetitions. */
  lemma {:induction false} KeepNonEmptyAppend(a: seq<string>, b: seq<string>)
    ensures KeepNonEmpty(a + b) == KeepNonEmpty(a) + KeepNonEmpty(b)
    decreases |a|
  {
    if a == [] {
      assert a + b == b;
    } else {
      assert (a + b)[0] == a[0];
      assert (a + b)[1..] == a[1..] + b;
      KeepNonEmptyAppend(a[1..], b);
    }
  }

  /** The text the setting is parsed from: an unset (or empty) setting reads as
      the empty string. */
  function RawSetting(setting: Option<string>): (raw: string)
    ensures setting.None? ==> raw == ""
    ensures setting.Some? ==> raw == setting.value
  {
    setting.GetOr("")
  }

  /** A usable identifier: non-empty, trimmed and free of commas. */
  predicate WellFormedId(id: string) {
    id != "" && Trimmed(id) && ',' !in id
  }

  /** The parsed allow-list: split on `,`, trim each piece, drop the empty
      ones. Every entry is a non-empty, trimmed, comma-free identifier. */
  function Parse(setting: Option<string>): (ids: seq<string>)
    ensures forall i :: 0 <= i < |ids| ==> WellFormedId(ids[i])
  {
    var pieces := Split(RawSetting(setting), ',');
    var trimmed := TrimAll(pieces);
    TrimmedPiecesWellFormed(pieces);
    KeepNonEmpty(trimmed)
  }

  /** List membership of the channel; an absent channel is never listed. */
  predicate Includes(ids: seq<string>, channel: Option<string>)
    ensures Includes(ids, channel) <==> exists i :: 0 <= i < |ids| && channel == Some(ids[i])
  {
    channel.Some? && channel.value in ids
  }

  lemma TrimmedPiecesWellFormed(pieces: seq<string>)
    requires forall i :: 0 <= i < |pieces| ==> ',' !in pieces[i]
    ensures forall x :: x in TrimAll(pieces) ==> Trimmed(x) && ',' !in x
  {
    var trimmed := TrimAll(pieces);
    forall x | x in trimmed ensures Trimmed(x) && ',' !in x {
      var i :| 0 <= i < |trimmed| && trimmed[i] == x;
      TrimKeepsAbsent(pieces[i], ',');
    }
  }

  /** Trimming never introduces a character. */
  lemma TrimKeepsAbsent(s: string, c: char)
    requires c !in s
    ensures c !in Trim(s)
  {
    var r := Trim(s);
    var i := |s| - |TrimStart(s)|;
    forall k | 0 <= k < |r| ensures r[k] != c {
      assert r[k] == s[i + k];
    }
  }

  /** Every piece is whitespace only. */
  predicate AllBlank(pieces: seq<string>) {
    forall i :: 0 <= i < |pieces| ==> AllWhitespace(pieces[i])
  }

  lemma AllBlankCons(x: string, rest: seq<string>)
    ensures AllBlank([x] + rest) <==> AllWhitespace(x) && AllBlank(rest)
  {
    var p := [x] + rest;
    if AllBlank(p) {
      forall i | 0 <= i < |rest| ensures AllWhitespace(rest[i]) {
        assert p[i + 1] == rest[i];
      }
      assert p[0] == x;
    }
    if AllWhitespace(x) && AllBlank(rest) {
      forall i | 0 <= i < |p| ensures AllWhitespace(p[i]) {
        if i > 0 {
          assert p[i] == rest[i - 1];
        }
      }
    }
  }

  /** Every character is a comma or whitespace. */
  predicate OnlyCommasAndWhitespace(s: string) {
    forall k :: 0 <= k < |s| ==> s[k] == ',' || IsWhitespace(s[k])
  }

  /** The list is empty exactly when the setting is unset, empty, or made only
      of commas and whitespace: then every channel is admitted. */
  lemma ParseEmptyIff(setting: Option<string>)
    ensures Parse(setting) == [] <==> OnlyCommasAndWhitespace(RawSetting(setting))
  {
    var raw := RawSetting(setting);
    var pieces := Split(raw, ',');
    assert Parse(setting) == KeepNonEmpty(TrimAll(pieces));
    NothingKeptIff(pieces);
    PiecesBlankIff(raw);
  }

  /** An unset or empty setting gives the empty list. */
  lemma ParseUnset()
    ensures Parse(None) == [] && Parse(Some("")) == []
  {
    ParseEmptyIff(None);
  }

  lemma {:induction false} NothingKeptIff(pieces: seq<string>)
    ensures KeepNonEmpty(TrimAll(pieces)) == [] <==> AllBlank(pieces)
  {
    if pieces != [] {
      TrimEmptyIff(pieces[0]);
      NothingKeptIff(pieces[1..]);
      assert TrimAll(pieces) == [Trim(pieces[0])] + TrimAll(pieces[1..]);
      AllBlankCons(pieces[0], pieces[1..]);
      assert pieces == [pieces[0]] + pieces[1..];
    }
  }

  lemma {:induction false} PiecesBlankIff(s: string)
    ensures AllBlank(Split(s, ',')) <==> OnlyCommasAndWhitespace(s)
    decreases |s|
  {
    if s != [] {
      var rest := Split(s[1..], ',');
      PiecesBlankIff(s[1..]);
      assert OnlyCommasAndWhitespace(s) <==> (s[0] == ',' || IsWhitespace(s[0])) && OnlyCommasAndWhitespace(s[1..]) by {
        assert forall k :: 0 < k < |s| ==> s[k] == s[1..][k - 1];
      }
      var pieces := Split(s, ',');
      if s[0] == ',' {
        assert pieces == [""] + rest;
        AllBlankCons("", rest);
      } else {
        assert pieces == [[s[0]] + rest[0]] + rest[1..];
        AllWhitespaceCons(s[0], rest[0]);
        AllBlankCons([s[0]] + rest[0], rest[1..]);
        AllBlankCons(rest[0], rest[1..]);
        assert rest == [rest[0]] + rest[1..];
      }
    }
  }

  /** Order: a setting written as comma-free pieces joined by commas parses to
      exactly those pieces, trimmed, with the empty ones dropped, left to right. */
  lemma ParseOfJoin(pieces: seq<string>)
    requires |pieces| >= 1
    requires forall i :: 0 <= i < |pieces| ==> ',' !in pieces[i]
    ensures Parse(Some(Join(pieces, ','))) == KeepNonEmpty(TrimAll(pieces))
  {
    SplitJoin(pieces, ',');
  }

  /** Round trip: a list of well-formed identifiers written out with commas
      parses back to the same list. */
  lemma ParseCanonical(ids: seq<string>)
    requires forall i :: 0 <= i < |ids| ==> WellFormedId(ids[i])
    ensures Parse(Some(Join(ids, ','))) == ids
  {
    if ids == [] {
      ParseUnset();
    } else {
      ParseCanonicalNonEmpty(ids);
    }
  }

  lemma ParseCanonicalNonEmpty(ids: seq<string>)
    requires ids != []
    requires forall i :: 0 <= i < |ids| ==> WellFormedId(ids[i])
    ensures Parse(Some(Join(ids, ','))) == ids
  {
    calc {
      Parse(Some(Join(ids, ',')));
    == { assert forall i :: 0 <= i < |ids| ==> ',' !in ids[i];
         ParseOfJoin(ids); }
      KeepNonEmpty(TrimAll(ids));
    == { TrimAllOfTrimmed(ids); }
      KeepNonEmpty(ids);
    == { KeepAllNonEmpty(ids); }
      ids;
    }
  }

  lemma {:induction false} TrimAllOfTrimmed(ids: seq<string>)
    requires forall i :: 0 <= i < |ids| ==> Trimmed(ids[i])
    ensures TrimAll(ids) == ids
  {
    if ids != [] {
      TrimOfTrimmed(ids[0]);
      TrimAllOfTrimmed(ids[1..]);
    }
  }

  lemma {:induction false} KeepAllNonEmpty(ids: seq<string>)
    requires forall i :: 0 <= i < |ids| ==> ids[i] != ""
    ensures KeepNonEmpty(ids) == ids
  {
    if ids != [] {
      KeepAllNonEmpty(ids[1..]);
    }
  }
}
