/** The supplier search box (`getFilteredSuppliers`): the selected business's
    suppliers whose name contains the query, both lower-cased. */
module Search {
  import opened Common
  import opened Records
  import opened Ledger

  /** `toLowerCase` on one character, for the capitals a supplier name uses:
      A-Z and the Turkish Ç, Ğ, Ö, Ş, Ü. Every other character is kept. */
  function ToLower(c: char): (l: char)
    ensures 'A' <= c <= 'Z' ==> l as int == c as int + 32
    ensures !('A' <= c <= 'Z') && !IsTurkishCapital(c) ==> l == c
    ensures c == 0xC7 as char ==> l == 0xE7 as char
    ensures c == 0x11E as char ==> l == 0x11F as char
    ensures c == 0xD6 as char ==> l == 0xF6 as char
    ensures c == 0x15E as char ==> l == 0x15F as char
    ensures c == 0xDC as char ==> l == 0xFC as char
    ensures !IsUpper(l)
  {
    if 'A' <= c <= 'Z' then (c as int + 32) as char
    else if c == 0xC7 as char then 0xE7 as char    // Ç -> ç
    else if c == 0x11E as char then 0x11F as char  // Ğ -> ğ
    else if c == 0xD6 as char then 0xF6 as char    // Ö -> ö
    else if c == 0x15E as char then 0x15F as char  // Ş -> ş
    else if c == 0xDC as char then 0xFC as char    // Ü -> ü
    else c
  }

  predicate IsTurkishCapital(c: char)
  {
    c == 0xC7 as char || c == 0x11E as char || c == 0xD6 as char || c == 0x15E as char || c == 0xDC as char
  }

  /** The capitals `ToLower` changes. */
  predicate IsUpper(c: char)
  {
    ('A' <= c <= 'Z') || IsTurkishCapital(c)
  }

  /** `s.toLowerCase()`, character by character. */
  function LowerString(s: string): (r: string)
    ensures |r| == |s|
    ensures forall i :: 0 <= i < |s| ==> r[i] == ToLower(s[i])
  {
    seq(|s|, i requires 0 <= i < |s| => ToLower(s[i]))
  }

  /** Lower-casing twice is lower-casing once. */
  lemma LowerStringIdempotent(s: string)
    ensures LowerString(LowerString(s)) == LowerString(s)
  {
    forall i | 0 <= i < |s|
      ensures ToLower(ToLower(s[i])) == ToLower(s[i])
    {
      assert !IsUpper(ToLower(s[i]));
    }
  }

  /** `q` occurs in `s` at position `i`. */
  predicate OccursAt(s: string, q: string, i: int)
  {
    0 <= i && i + |q| <= |s| && s[i..i + |q|] == q
  }

  /** `s.includes(q)`, searching from the front. */
  function Includes(s: string, q: string): (r: bool)
    ensures r <==> exists i :: OccursAt(s, q, i)
    decreases |s|
  {
    if |q| > |s| then
      assert forall i :: !OccursAt(s, q, i);
      false
    else if s[..|q|] == q then
      assert OccursAt(s, q, 0);
      true
    else
      var rest := Includes(s[1..], q);
      assert !OccursAt(s, q, 0);
      assert rest ==> exists i :: OccursAt(s, q, i) by {
        if rest {
          var i :| OccursAt(s[1..], q, i);
          assert s[1..][i..i + |q|] == s[i + 1..i + 1 + |q|];
          assert OccursAt(s, q, i + 1);
        }
      }
      assert (exists i :: OccursAt(s, q, i)) ==> rest by {
        if exists i :: OccursAt(s, q, i) {
          var i :| OccursAt(s, q, i);
          assert i != 0;
          assert s[1..][i - 1..i - 1 + |q|] == s[i..i + |q|];
          assert OccursAt(s[1..], q, i - 1);
        }
      }
      rest
  }

  /** The empty query occurs in every name. */
  lemma IncludesEmpty(s: string)
    ensures Includes(s, "")
  {
    assert OccursAt(s, "", 0);
  }

  function NameMatches(query: string): Supplier -> bool
  {
    (s: Supplier) => Includes(LowerString(s.name), LowerString(query))
  }

  /** `getFilteredSuppliers()`: with an empty query, the business's suppliers;
      otherwise those whose lower-cased name contains the lower-cased query, in
      list order. */
  function FilteredSuppliers(selected: Option<Business>, sups: seq<Supplier>, query: string): (r: seq<Supplier>)
    ensures forall s :: s in r <==>
              s in BusinessSuppliers(selected, sups)
              && (query == "" || exists i :: OccursAt(LowerString(s.name), LowerString(query), i))
    ensures Subsequence(r, BusinessSuppliers(selected, sups))
  {
    var bs := BusinessSuppliers(selected, sups);
    if query == "" then
      SubsequenceRefl(bs);
      bs
    else Filter(bs, NameMatches(query))
  }

  /** The empty-query branch is only a shortcut: searching for "" keeps every
      supplier of the business, exactly as filtering would. */
  lemma EmptyQueryIsFilter(selected: Option<Business>, sups: seq<Supplier>)
    ensures FilteredSuppliers(selected, sups, "") == Filter(BusinessSuppliers(selected, sups), NameMatches(""))
  {
    var bs := BusinessSuppliers(selected, sups);
    forall s | s in bs ensures NameMatches("")(s) {
      assert LowerString("") == "";
      IncludesEmpty(LowerString(s.name));
    }
    FilterKeepsAll(bs, NameMatches(""));
  }

  /** The search ignores case: queries that lower-case alike give the same list. */
  lemma SearchIgnoresCase(selected: Option<Business>, sups: seq<Supplier>, q1: string, q2: string)
    requires LowerString(q1) == LowerString(q2)
    ensures FilteredSuppliers(selected, sups, q1) == FilteredSuppliers(selected, sups, q2)
  {
    var bs := BusinessSuppliers(selected, sups);
    assert |q1| == |q2|;
    if q1 != "" {
      FilterCongruent(bs, NameMatches(q1), NameMatches(q2));
    }
  }

  /** In particular, searching for a query or for its lower-cased form is the same. */
  lemma SearchLowerQuery(selected: Option<Business>, sups: seq<Supplier>, q: string)
    ensures FilteredSuppliers(selected, sups, LowerString(q)) == FilteredSuppliers(selected, sups, q)
  {
    LowerStringIdempotent(q);
    SearchIgnoresCase(selected, sups, LowerString(q), q);
  }
}
