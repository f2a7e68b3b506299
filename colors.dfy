/** Colour normalisation: each requested colour is matched case-insensitively
    against the colour catalogue and replaced by the catalogue's spelling;
    duplicates are dropped, blanks skipped, and one unknown colour rejects the
    whole request. */
module Colors {
  import opened Js

  /** The `colors` argument: something other than an array, or an array of values
      already turned into text by `String(color)`. */
  datatype ColorsInput = NotAnArray | AnArray(items: seq<string>)

  datatype ColorError = ColorError(statusCode: int, message: string)

  datatype Outcome = Normalized(names: seq<string>) | Rejected(error: ColorError)

  /** The lookup table `new Map(available.map((c) => [c.name.toLowerCase(), c]))`:
      when two names share a lower-case form, the later one wins. */
  function ByLower(catalogue: seq<string>): (m: map<string, string>)
    ensures forall k :: k in m ==> m[k] in catalogue && Lower(m[k]) == k
    ensures forall i :: 0 <= i < |catalogue| ==> Lower(catalogue[i]) in m
  {
    if |catalogue| == 0 then map[]
    else
      var last := catalogue[|catalogue| - 1];
      ByLower(catalogue[..|catalogue| - 1])[Lower(last) := last]
  }

  /** `String(color).trim().toLowerCase()`. */
  function Key(item: string): string {
    Lower(Trim(item))
  }

  /** An entry that is not blank and has no match in `table`. */
  predicate Unmatched(item: string, table: map<string, string>) {
    Key(item) != "" && Key(item) !in table
  }

  function ErrorFor(item: string, catalogue: seq<string>): ColorError {
    ColorError(400, "La couleur \"" + item + "\" n'est pas disponible. Couleurs autorisées : "
                    + Join(catalogue, ", ") + ".")
  }

  /** One turn of the loop, against the lookup table built from `catalogue`. */
  function Step(acc: Outcome, item: string, table: map<string, string>, catalogue: seq<string>): Outcome {
    match acc
    case Rejected(_) => acc
    case Normalized(names) =>
      if Key(item) == "" then acc
      else if Key(item) !in table then Rejected(ErrorFor(item, catalogue))
      else
        var name := table[Key(item)];
        if name in names then acc else Normalized(names + [name])
  }

  /** The loop over all items, as a left fold: the output holds table entries only,
      each once. */
  function NormalizeAll(items: seq<string>, table: map<string, string>, catalogue: seq<string>): (r: Outcome)
    ensures r.Normalized? ==> NoDuplicates(r.names) && (forall n :: n in r.names ==> n in table.Values)
  {
    if |items| == 0 then Normalized([])
    else Step(NormalizeAll(items[..|items| - 1], table, catalogue), items[|items| - 1], table, catalogue)
  }

  /** `normalizeColors(colors)` with the catalogue's names as a parameter: a success
      lists catalogue names only, each once. */
  function NormalizeColors(input: ColorsInput, catalogue: seq<string>): (r: Outcome)
    ensures r.Normalized? ==> NoDuplicates(r.names) && (forall n :: n in r.names ==> n in catalogue)
  {
    match input
    case NotAnArray => Normalized([])
    case AnArray(items) =>
      if |items| == 0 then Normalized([]) else NormalizeAll(items, ByLower(catalogue), catalogue)
  }

  /** The imperative loop, with the `seen` set beside the output list. */
  method Normalize(input: ColorsInput, catalogue: seq<string>) returns (r: Outcome)
    ensures r == NormalizeColors(input, catalogue)
  {
    if input.NotAnArray? || |input.items| == 0 {
      return Normalized([]);
    }
    var items := input.items;
    var availableByLower := ByLower(catalogue);
    var normalized: seq<string> := [];
    var seen: set<string> := {};
    for i := 0 to |items|
      invariant NormalizeAll(items[..i], availableByLower, catalogue) == Normalized(normalized)
      invariant seen == set n | n in normalized
    {
      assert items[..i + 1][..i] == items[..i];
      assert NormalizeAll(items[..i + 1], availableByLower, catalogue)
          == Step(Normalized(normalized), items[i], availableByLower, catalogue);
      var key := Lower(Trim(items[i]));
      if key == "" {
        continue;
      }
      if key !in availableByLower {
        RejectedStays(items, availableByLower, catalogue, i + 1);
        return Rejected(ErrorFor(items[i], catalogue));
      }
      var name := availableByLower[key];
      if name !in seen {
        normalized := normalized + [name];
        seen := seen + {name};
      }
    }
    assert items[..|items|] == items;
    r := Normalized(normalized);
  }

  /** Once rejected, a fold stays rejected with the same error. */
  lemma {:induction false} RejectedStays(items: seq<string>, table: map<string, string>, catalogue: seq<string>, k: nat)
    requires k <= |items|
    requires NormalizeAll(items[..k], table, catalogue).Rejected?
    ensures NormalizeAll(items, table, catalogue) == NormalizeAll(items[..k], table, catalogue)
    decreases |items| - k
  {
    if k < |items| {
      assert items[..k + 1][..k] == items[..k];
      RejectedStays(items, table, catalogue, k + 1);
    } else {
      assert items[..k] == items;
    }
  }

  /** One turn of the loop: a rejection stays, and a success turns into a
      rejection exactly at an unmatched entry, with that entry's error. */
  lemma StepCases(acc: Outcome, item: string, table: map<string, string>, catalogue: seq<string>)
    ensures acc.Rejected? ==> Step(acc, item, table, catalogue) == acc
    ensures acc.Normalized? ==>
      (Step(acc, item, table, catalogue).Rejected? <==> Unmatched(item, table))
    ensures acc.Normalized? && Unmatched(item, table) ==>
      Step(acc, item, table, catalogue) == Rejected(ErrorFor(item, catalogue))
  {
  }

  /** All or nothing: the fold fails exactly when some non-blank entry has no
      match, and then with the error for the first such entry. */
  lemma {:induction false} RejectedIffUnmatched(items: seq<string>, table: map<string, string>, catalogue: seq<string>)
    ensures NormalizeAll(items, table, catalogue).Rejected? <==>
      exists i :: 0 <= i < |items| && Unmatched(items[i], table)
    ensures NormalizeAll(items, table, catalogue).Rejected? ==>
      exists i :: 0 <= i < |items| && Unmatched(items[i], table)
        && (forall j :: 0 <= j < i ==> !Unmatched(items[j], table))
        && NormalizeAll(items, table, catalogue).error == ErrorFor(items[i], catalogue)
  {
    if |items| > 0 {
      var init, last := items[..|items| - 1], items[|items| - 1];
      var before := NormalizeAll(init, table, catalogue);
      assert NormalizeAll(items, table, catalogue) == Step(before, last, table, catalogue);
      StepCases(before, last, table, catalogue);
      RejectedIffUnmatched(init, table, catalogue);
      assert forall i :: 0 <= i < |init| ==> init[i] == items[i];
      if before.Rejected? {
        var i :| 0 <= i < |init| && Unmatched(init[i], table)
          && (forall j :: 0 <= j < i ==> !Unmatched(init[j], table))
          && before.error == ErrorFor(init[i], catalogue);
        assert Unmatched(items[i], table);
      }
    }
  }

  /** The canonical names of the non-blank entries, before duplicates are dropped. */
  function Canonicals(items: seq<string>, table: map<string, string>): seq<string>
    requires forall i :: 0 <= i < |items| ==> !Unmatched(items[i], table)
  {
    if |items| == 0 then []
    else
      var init := items[..|items| - 1];
      var item := items[|items| - 1];
      assert !Unmatched(item, table);
      assert forall i :: 0 <= i < |init| ==> init[i] == items[i];
      Canonicals(init, table) + (if Key(item) == "" then [] else [table[Key(item)]])
  }

  /** The result, characterised without the fold: the canonical spellings of the
      non-blank entries, each kept at its first occurrence, in input order. */
  lemma {:induction false} NormalizedIsFirstOccurrences(items: seq<string>, table: map<string, string>, catalogue: seq<string>)
    requires forall i :: 0 <= i < |items| ==> !Unmatched(items[i], table)
    ensures NormalizeAll(items, table, catalogue) == Normalized(Dedup(Canonicals(items, table)))
  {
    if |items| > 0 {
      var init := items[..|items| - 1];
      var item := items[|items| - 1];
      assert forall i :: 0 <= i < |init| ==> init[i] == items[i];
      NormalizedIsFirstOccurrences(init, table, catalogue);
      var cs := Canonicals(init, table);
      assert !Unmatched(item, table);
      if Key(item) != "" {
        var name := table[Key(item)];
        DedupAfterSnoc(cs, name, []);
        assert Canonicals(items, table) == cs + [name];
        assert (name in Dedup(cs)) == (name in cs);
      } else {
        assert Canonicals(items, table) == cs;
      }
    }
  }

  /** A table entry filed under its own lower-case form, with no surrounding space. */
  predicate SelfKeyed(table: map<string, string>) {
    forall k :: k in table ==> Lower(table[k]) == k && IsTrimmed(table[k])
  }

  /** The table built from a catalogue of trimmed names files each under its own key. */
  lemma ByLowerSelfKeyed(catalogue: seq<string>)
    requires forall i :: 0 <= i < |catalogue| ==> IsTrimmed(catalogue[i])
    ensures SelfKeyed(ByLower(catalogue))
  {
  }

  /** Re-normalising an output gives it back, when the catalogue's names carry no
      surrounding white space. */
  lemma NormalizeIdempotent(items: seq<string>, catalogue: seq<string>)
    requires forall i :: 0 <= i < |catalogue| ==> IsTrimmed(catalogue[i])
    requires NormalizeColors(AnArray(items), catalogue).Normalized?
    ensures var out := NormalizeColors(AnArray(items), catalogue).names;
      NormalizeColors(AnArray(out), catalogue) == Normalized(out)
  {
    var table := ByLower(catalogue);
    ByLowerSelfKeyed(catalogue);
    if |items| > 0 {
      var out := NormalizeAll(items, table, catalogue).names;
      OutputsAreKeys(items, table, catalogue);
      RefoldKeys(out, table, catalogue, |out|);
      assert out[..|out|] == out;
    }
  }

  /** Every output name is a non-blank table entry reached through its own key. */
  lemma {:induction false} OutputsAreKeys(items: seq<string>, table: map<string, string>, catalogue: seq<string>)
    requires SelfKeyed(table)
    requires NormalizeAll(items, table, catalogue).Normalized?
    ensures forall n :: n in NormalizeAll(items, table, catalogue).names ==>
      Key(n) != "" && Key(n) in table && table[Key(n)] == n
  {
    if |items| > 0 {
      OutputsAreKeys(items[..|items| - 1], table, catalogue);
      var item := items[|items| - 1];
      if Key(item) != "" && Key(item) in table {
        var n := table[Key(item)];
        TrimOfTrimmed(n);
      }
    }
  }

  lemma {:induction false} RefoldKeys(out: seq<string>, table: map<string, string>, catalogue: seq<string>, k: nat)
    requires k <= |out|
    requires NoDuplicates(out)
    requires forall n :: n in out ==> Key(n) != "" && Key(n) in table && table[Key(n)] == n
    ensures NormalizeAll(out[..k], table, catalogue) == Normalized(out[..k])
  {
    if k > 0 {
      RefoldKeys(out, table, catalogue, k - 1);
      assert out[..k][..k - 1] == out[..k - 1];
      var n := out[k - 1];
      assert n in out;
      assert n !in out[..k - 1];
      assert out[..k - 1] + [n] == out[..k];
    }
  }

  /** A non-array or empty argument gives no colours, whatever the catalogue holds. */
  lemma EmptyInputNeedsNoCatalogue(input: ColorsInput, c1: seq<string>, c2: seq<string>)
    requires input.NotAnArray? || input.items == []
    ensures NormalizeColors(input, c1) == NormalizeColors(input, c2) == Normalized([])
  {
  }
}
