/**
  Column-header normalisation: every column name is lower-cased and every
  space is replaced by an underscore, then the columns the analysis reads are
  looked up by their normalised names.
 */
module Columns {
  import opened Wrappers

  /** Capital letters whose lower-case form the model knows: ASCII and the basic Cyrillic block. */
  predicate IsUpper(c: char) {
    ('A' <= c <= 'Z') || ('\U{400}' <= c <= '\U{42F}')
  }

  /** The capitals the model lower-cases, block by block, and below each block its lower-case letters, position by position. */
  const LatinCapitals: string := "ABCDEFGHIJKLMNOPQRSTUVWXYZ"
  const LatinSmalls: string := "abcdefghijklmnopqrstuvwxyz"
  const CyrillicExtraCapitals: string := "ЀЁЂЃЄЅІЇЈЉЊЋЌЍЎЏ"
  const CyrillicExtraSmalls: string := "ѐёђѓєѕіїјљњћќѝўџ"
  const CyrillicCapitals: string := "АБВГДЕЖЗИЙКЛМНОПРСТУФХЦЧШЩЪЫЬЭЮЯ"
  const CyrillicSmalls: string := "абвгдежзийклмнопрстуфхцчшщъыьэюя"
  const Capitals: string := LatinCapitals + CyrillicExtraCapitals + CyrillicCapitals
  const Smalls: string := LatinSmalls + CyrillicExtraSmalls + CyrillicSmalls

  /** Code points of the alphabet tables: each block is a run of consecutive characters. */
  lemma AlphabetLayout()
    ensures |Capitals| == |Smalls| == 74
    ensures forall k :: 0 <= k < 26 ==> Capitals[k] as int == 'A' as int + k && Smalls[k] as int == 'a' as int + k
    ensures forall k :: 26 <= k < 42 ==> Capitals[k] as int == 0x400 + k - 26 && Smalls[k] as int == 0x450 + k - 26
    ensures forall k :: 42 <= k < 74 ==> Capitals[k] as int == 0x410 + k - 42 && Smalls[k] as int == 0x430 + k - 42
  {
    assert forall k :: 0 <= k < 26 ==> LatinCapitals[k] as int == 'A' as int + k && LatinSmalls[k] as int == 'a' as int + k;
    assert forall k :: 0 <= k < 16 ==> CyrillicExtraCapitals[k] as int == 0x400 + k && CyrillicExtraSmalls[k] as int == 0x450 + k;
    assert forall k :: 0 <= k < 32 ==> CyrillicCapitals[k] as int == 0x410 + k && CyrillicSmalls[k] as int == 0x430 + k;
  }

  /** The capital table holds exactly the known capitals. */
  lemma CapitalsCover(c: char)
    ensures IsUpper(c) <==> c in Capitals
  {
    AlphabetLayout();
    if IsUpper(c) {
      var k := if c <= 'Z' then c as int - 'A' as int else if c <= '\U{40F}' then c as int - 0x400 + 26 else c as int - 0x410 + 42;
      assert Capitals[k] == c;
    }
  }

  /** Lower-case form of one character (Latin A-Z, Cyrillic Ѐ-Џ and А-Я); every other character is kept. */
  function LowerChar(c: char): (d: char)
    ensures !IsUpper(d)
    ensures d != c <==> IsUpper(c)
    ensures d == ' ' <==> c == ' '
  {
    if 'A' <= c <= 'Z' then (c as int + 32) as char
    else if '\U{410}' <= c <= '\U{42F}' then (c as int + 32) as char
    else if '\U{400}' <= c <= '\U{40F}' then (c as int + 80) as char
    else c
  }

  /** Each capital of the table becomes the letter below it, and nothing outside the table changes. */
  lemma LowerCharAlphabet(c: char)
    ensures forall k :: 0 <= k < |Capitals| && c == Capitals[k] ==> LowerChar(c) == Smalls[k]
    ensures c !in Capitals ==> LowerChar(c) == c
  {
    AlphabetLayout();
    CapitalsCover(c);
    forall k | 0 <= k < |Capitals| && c == Capitals[k] ensures LowerChar(c) == Smalls[k] {
      if k < 26 {
        assert c as int == 'A' as int + k;
      } else if k < 42 {
        assert c as int == 0x400 + k - 26;
      } else {
        assert c as int == 0x410 + k - 42;
      }
    }
  }

  /** `str.lower()` on one name. */
  function Lower(s: string): (r: string)
    ensures |r| == |s|
    ensures forall i :: 0 <= i < |s| ==> r[i] == LowerChar(s[i])
  {
    if s == [] then [] else [LowerChar(s[0])] + Lower(s[1..])
  }

  /** `str.replace(" ", "_")` on one name: only the plain space character is replaced. */
  function ReplaceSpaces(s: string): (r: string)
    ensures |r| == |s|
    ensures forall i :: 0 <= i < |s| ==> r[i] == (if s[i] == ' ' then '_' else s[i])
  {
    if s == [] then [] else [if s[0] == ' ' then '_' else s[0]] + ReplaceSpaces(s[1..])
  }

  /** A name that normalisation leaves as it is: no space and no known capital letter. */
  predicate IsNormal(s: string) {
    forall i :: 0 <= i < |s| ==> s[i] != ' ' && !IsUpper(s[i])
  }

  /** One column name, lower-cased and then with its spaces turned into underscores. */
  function NormaliseName(s: string): (r: string)
    ensures |r| == |s|
    ensures IsNormal(r)
    ensures forall i :: 0 <= i < |s| ==>
      (s[i] == ' ' ==> r[i] == '_') && (s[i] != ' ' ==> r[i] == LowerChar(s[i]))
  {
    ReplaceSpaces(Lower(s))
  }

  /** A normal name is a fixed point of normalisation. */
  lemma NormalIsFixed(s: string)
    requires IsNormal(s)
    ensures NormaliseName(s) == s
  {
    var r := NormaliseName(s);
    assert forall i :: 0 <= i < |s| ==> r[i] == s[i];
  }

  /** Normalising a name twice gives the same name as normalising it once. */
  lemma NormaliseNameIdempotent(s: string)
    ensures NormaliseName(NormaliseName(s)) == NormaliseName(s)
  {
    NormalIsFixed(NormaliseName(s));
  }

  /** The whole header, normalised column by column in the same order. */
  function NormaliseColumns(cols: seq<string>): (r: seq<string>)
    ensures |r| == |cols|
    ensures forall i :: 0 <= i < |cols| ==> r[i] == NormaliseName(cols[i])
  {
    if cols == [] then [] else [NormaliseName(cols[0])] + NormaliseColumns(cols[1..])
  }

  /** A header whose names are all normal is left unchanged. */
  lemma NormalColumnsFixed(cols: seq<string>)
    requires forall i :: 0 <= i < |cols| ==> IsNormal(cols[i])
    ensures NormaliseColumns(cols) == cols
  {
    var r := NormaliseColumns(cols);
    forall i | 0 <= i < |cols| ensures r[i] == cols[i] {
      NormalIsFixed(cols[i]);
    }
    assert |r| == |cols|;
  }

  /** Normalising an already normalised header changes nothing, and no column name keeps a space. */
  lemma NormaliseColumnsIdempotent(cols: seq<string>)
    ensures NormaliseColumns(NormaliseColumns(cols)) == NormaliseColumns(cols)
    ensures forall i :: 0 <= i < |cols| ==> ' ' !in NormaliseColumns(cols)[i]
  {
    var once := NormaliseColumns(cols);
    forall i | 0 <= i < |cols|
      ensures NormaliseColumns(once)[i] == once[i]
    {
      NormaliseNameIdempotent(cols[i]);
    }
    forall i | 0 <= i < |cols|
      ensures ' ' !in once[i]
    {
      assert IsNormal(once[i]);
    }
  }

  /** The columns the analysis reads, by their normalised names. */
  const Required: seq<string> := ["platform", "spend", "revenue", "clicks", "conversions"]

  /** The required columns absent from a header, in the order of `Required`. */
  function MissingFrom(names: seq<string>, header: seq<string>): (r: seq<string>)
    ensures forall n :: n in r <==> n in names && n !in header
  {
    if names == [] then []
    else (if names[0] in header then [] else [names[0]]) + MissingFrom(names[1..], header)
  }

  /** The required columns that a raw header lacks once it is normalised. */
  function Missing(header: seq<string>): (r: seq<string>)
    ensures forall n :: n in r <==> n in Required && n !in NormaliseColumns(header)
  {
    MissingFrom(Required, NormaliseColumns(header))
  }

  /** The names that occur more than once in a header, in the order of `names`. */
  function DuplicatedFrom(names: seq<string>, header: seq<string>): (r: seq<string>)
    ensures forall n :: n in r <==> n in names && multiset(header)[n] > 1
  {
    if names == [] then []
    else (if multiset(header)[names[0]] > 1 then [names[0]] else []) + DuplicatedFrom(names[1..], header)
  }

  /**
    The required columns that occur twice or more once the header is normalised:
    selecting such a column yields a two-column frame instead of one column,
    and grouping by a duplicated `platform` is rejected.
   */
  function Duplicated(header: seq<string>): (r: seq<string>)
    ensures forall n :: n in r <==> n in Required && multiset(NormaliseColumns(header))[n] > 1
  {
    DuplicatedFrom(Required, NormaliseColumns(header))
  }

  /** Why a header cannot be analysed: required columns that are absent and required columns that occur twice. */
  datatype SchemaError = SchemaError(missing: seq<string>, duplicated: seq<string>)

  /** The schema check: every required column occurs exactly once in the normalised header. */
  function CheckSchema(header: seq<string>): (e: Option<SchemaError>)
    ensures e.None? <==> forall n :: n in Required ==> multiset(NormaliseColumns(header))[n] == 1
    ensures e.Some? ==> forall n :: n in e.value.missing <==> n in Required && n !in NormaliseColumns(header)
    ensures e.Some? ==> forall n :: n in e.value.duplicated <==> n in Required && multiset(NormaliseColumns(header))[n] > 1
  {
    var missing := Missing(header);
    var duplicated := Duplicated(header);
    if missing == [] && duplicated == [] then
      None
    else
      assert missing != [] ==> missing[0] in missing;
      assert duplicated != [] ==> duplicated[0] in duplicated;
      Some(SchemaError(missing, duplicated))
  }
}
