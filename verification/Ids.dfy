/** Operation and recovery-point identifiers: UUID texts (section 4 of RFC 9562) and their canonical form. */
module Ids {
  import opened Wrappers
  import opened Text

  predicate LowerHex(c: char) {
    '0' <= c <= '9' || 'a' <= c <= 'f'
  }

  predicate HexDigit(c: char) {
    LowerHex(c) || 'A' <= c <= 'F'
  }

  function LowerChar(c: char): (r: char) {
    if 'A' <= c <= 'Z' then (c as int + 32) as char else c
  }

  function Lower(s: string): (r: string)
    ensures |r| == |s|
    ensures forall i :: 0 <= i < |s| ==> r[i] == LowerChar(s[i])
  {
    if s == "" then "" else [LowerChar(s[0])] + Lower(s[1..])
  }

  predicate DashAt(i: int) {
    i == 8 || i == 13 || i == 18 || i == 23
  }

  /** The pattern every stored recovery point ID has to match. */
  predicate Canonical(id: string) {
    |id| == 36 && forall i :: 0 <= i < 36 ==> if DashAt(i) then id[i] == '-' else LowerHex(id[i])
  }

  /** The 8-4-4-4-12 text, in either case of hexadecimal digits. */
  predicate Dashed(s: string) {
    |s| == 36 && forall i :: 0 <= i < 36 ==> if DashAt(i) then s[i] == '-' else HexDigit(s[i])
  }

  predicate Undashed(s: string) {
    |s| == 32 && forall i :: 0 <= i < 32 ==> HexDigit(s[i])
  }

  /** The position, among the 32 digits, of the digit at position `i` of the dashed text. */
  function DigitIndex(i: int): int {
    if i < 8 then i else if i < 13 then i - 1 else if i < 18 then i - 2 else if i < 23 then i - 3 else i - 4
  }

  /** Puts the four dashes into 32 digits. */
  function InsertDashes(s: string): (r: string)
    requires |s| == 32
    ensures |r| == 36
    ensures forall i :: 0 <= i < 36 ==> r[i] == if DashAt(i) then '-' else s[DigitIndex(i)]
  {
    seq(36, i requires 0 <= i < 36 => if DashAt(i) then '-' else s[DigitIndex(i)])
  }

  /** `uuid.Parse` followed by `String`: the one place where raw operation IDs become recovery point IDs.
      The 38 character form is accepted with any enclosing pair of characters. */
  function Normalize(raw: string): Option<string> {
    if |raw| == 36 && Dashed(raw) then Some(Lower(raw))
    else if |raw| == 45 && Lower(raw[..9]) == "urn:uuid:" && Dashed(raw[9..]) then Some(Lower(raw[9..]))
    else if |raw| == 38 && Dashed(raw[1..37]) then Some(Lower(raw[1..37]))
    else if |raw| == 32 && Undashed(raw) then Some(Lower(InsertDashes(raw)))
    else None
  }

  /** Every text that denotes the canonical ID `id`. */
  predicate Spells(raw: string, id: string) {
    || Lower(raw) == id
    || (|raw| == 45 && Lower(raw) == "urn:uuid:" + id)
    || (|raw| == 38 && Lower(raw[1..37]) == id)
    || Lower(raw) == RemoveDashes(id)
  }

  lemma LowerHexFacts(c: char)
    ensures LowerHex(c) ==> LowerChar(c) == c && HexDigit(c)
    ensures HexDigit(c) <==> LowerHex(LowerChar(c))
    ensures LowerChar(c) == '-' <==> c == '-'
  {
  }

  lemma LowerDashed(s: string)
    ensures Dashed(s) <==> Canonical(Lower(s))
  {
    forall i | 0 <= i < |s|
      ensures HexDigit(s[i]) <==> LowerHex(Lower(s)[i])
      ensures s[i] == '-' <==> Lower(s)[i] == '-'
    {
      LowerHexFacts(s[i]);
    }
  }

  lemma LowerIdempotentOnCanonical(id: string)
    requires Canonical(id)
    ensures Lower(id) == id && Dashed(id)
  {
    forall i | 0 <= i < 36 ensures LowerChar(id[i]) == id[i] {
      LowerHexFacts(id[i]);
    }
    LowerDashed(Lower(id));
  }

  /** A canonical ID without its dashes is its five groups of digits, so the dashes can be put back. */
  lemma CanonicalGroups(id: string)
    requires Canonical(id)
    ensures RemoveDashes(id) == id[..8] + id[9..13] + id[14..18] + id[19..23] + id[24..]
    ensures |RemoveDashes(id)| == 32 && InsertDashes(RemoveDashes(id)) == id
  {
    RemoveHead(id);
    RemoveTail(id);
    var r := RemoveDashes(id);
    forall i | 0 <= i < 36 && !DashAt(i) ensures r[DigitIndex(i)] == id[i] {
    }
  }

  lemma RemoveHead(id: string)
    requires Canonical(id)
    ensures RemoveDashes(id) == id[..8] + (id[9..13] + RemoveDashes(id[14..]))
  {
    NoDash(id, 0, 8);
    NoDash(id, 9, 13);
    assert id == id[0..8] + ("-" + id[9..]);
    RemoveDash(id[0..8], id[9..]);
    assert id[9..] == id[9..13] + ("-" + id[14..]);
    RemoveDash(id[9..13], id[14..]);
  }

  lemma RemoveTail(id: string)
    requires Canonical(id)
    ensures RemoveDashes(id[14..]) == id[14..18] + (id[19..23] + id[24..])
  {
    NoDash(id, 14, 18);
    NoDash(id, 19, 23);
    NoDash(id, 24, 36);
    assert id[14..] == id[14..18] + ("-" + id[19..]);
    RemoveDash(id[14..18], id[19..]);
    assert id[19..] == id[19..23] + ("-" + id[24..]);
    RemoveDash(id[19..23], id[24..]);
    assert id[24..36] == id[24..];
    RemoveDashesNone(id[24..36]);
  }

  lemma NoDash(id: string, from: nat, to: nat)
    requires Canonical(id) && from <= to <= 36
    requires forall i :: from <= i < to ==> !DashAt(i)
    ensures '-' !in id[from..to]
  {
    forall i | from <= i < to ensures id[i] != '-' {
      assert LowerHex(id[i]);
    }
  }

  /** Removing the dashes loses nothing on canonical IDs. */
  lemma DashRemovalInjective(a: string, b: string)
    requires Canonical(a) && Canonical(b)
    requires RemoveDashes(a) == RemoveDashes(b)
    ensures a == b
  {
    CanonicalGroups(a);
    CanonicalGroups(b);
  }

  lemma NormalizeIsCanonical(raw: string)
    ensures Normalize(raw).Some? ==> Canonical(Normalize(raw).value)
  {
    if |raw| == 36 {
      LowerDashed(raw);
    } else if |raw| == 45 {
      LowerDashed(raw[9..]);
    } else if |raw| == 38 {
      LowerDashed(raw[1..37]);
    } else if |raw| == 32 && Undashed(raw) {
      var s := InsertDashes(raw);
      LowerDashed(s);
    }
  }

  lemma LowerOfInsertDashes(s: string)
    requires |s| == 32
    ensures Lower(InsertDashes(s)) == InsertDashes(Lower(s))
  {
  }

  lemma InsertDashesInjective(s: string, t: string)
    requires |s| == |t| == 32 && InsertDashes(s) == InsertDashes(t)
    ensures s == t
  {
    forall k | 0 <= k < 32 ensures s[k] == t[k] {
      var i := if k < 8 then k else if k < 12 then k + 1 else if k < 16 then k + 2 else if k < 20 then k + 3 else k + 4;
      assert !DashAt(i) && DigitIndex(i) == k;
      assert InsertDashes(s)[i] == s[k] && InsertDashes(t)[i] == t[k];
    }
  }

  /** Raw operation IDs collide after normalisation exactly when they spell the same canonical ID;
      a canonical ID is its own normal form. */
  lemma NormalizeExactly(raw: string, id: string)
    requires Canonical(id)
    ensures Normalize(raw) == Some(id) <==> Spells(raw, id)
    ensures Normalize(id) == Some(id)
  {
    LowerIdempotentOnCanonical(id);
    CanonicalGroups(id);
    LowerDashed(raw);
    if |raw| == 45 {
      LowerDashed(raw[9..]);
      assert Lower(raw) == Lower(raw[..9]) + Lower(raw[9..]);
      assert Lower(raw) == "urn:uuid:" + id <==> Lower(raw[..9]) == "urn:uuid:" && Lower(raw[9..]) == id by {
        if Lower(raw) == "urn:uuid:" + id {
          assert Lower(raw)[..9] == "urn:uuid:" && Lower(raw)[9..] == id;
          assert Lower(raw[..9]) == Lower(raw)[..9];
          assert Lower(raw[9..]) == Lower(raw)[9..];
        }
      }
    } else if |raw| == 38 {
      LowerDashed(raw[1..37]);
    } else if |raw| == 32 {
      LowerOfInsertDashes(raw);
      if Lower(raw) == RemoveDashes(id) {
        forall i | 0 <= i < 32 ensures HexDigit(raw[i]) {
          LowerHexFacts(raw[i]);
          assert LowerHex(RemoveDashes(id)[i]);
        }
      } else if Undashed(raw) && InsertDashes(Lower(raw)) == id {
        InsertDashesInjective(Lower(raw), RemoveDashes(id));
        assert false;
      }
    }
  }
}
