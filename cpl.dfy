/**
 * The composition playlist value object (dcitools/parsers/cpl.py): the
 * identity, title, kind, duration and edit rate of a CPL, filled from a
 * GetCPLInfo reply, and the short name derived from its title.
 *
 * Strings are sequences of characters; `lower` acts on ASCII letters and
 * `strip` on ASCII white space.
 */
module Cpl {
  import opened Wrappers
  import opened Bytes
  import RequestHandlers

  /** The default of the text fields. */
  const UNKNOWN: string := "Unknown"

  /** The identifier of a GetCPLInfo reply for a composition the server
      does not know. */
  const NIL_UUID: string := "00000000-0000-0000-0000-000000000000"

  /** The entries of a GetCPLInfo reply that from_cpl_info reads. */
  datatype CplInfo = CplInfo(id: string, contentTitleText: string, contentKindText: string,
                             duration: int, editRateA: int, editRateB: int)

  // ---------------------------------------------------------------------------
  // String operations
  // ---------------------------------------------------------------------------

  predicate IsUpper(c: char)
  {
    'A' <= c <= 'Z'
  }

  predicate IsLower(c: char)
  {
    'a' <= c <= 'z'
  }

  function LowerChar(c: char): (r: char)
    ensures !IsUpper(r)
    ensures !IsUpper(c) ==> r == c
    ensures IsUpper(c) ==> IsLower(r)
  {
    if IsUpper(c) then (c as int + 32) as char else c
  }

  /** s.lower(): every upper-case letter replaced by its lower-case form. */
  function Lower(s: string): (r: string)
    ensures |r| == |s|
    ensures forall i :: 0 <= i < |r| ==> !IsUpper(r[i])
    ensures forall i :: 0 <= i < |r| ==> (r[i] == s[i] || (IsUpper(s[i]) && IsLower(r[i])))
  {
    if s == [] then [] else [LowerChar(s[0])] + Lower(s[1..])
  }

  /** s.replace(a, b) for single characters: no a is left when b differs
      from a, and every other character stays where it was. */
  function Replace(s: string, a: char, b: char): (r: string)
    ensures |r| == |s|
    ensures a != b ==> a !in r
    ensures forall i :: 0 <= i < |r| ==> (r[i] == s[i] || (s[i] == a && r[i] == b))
  {
    if s == [] then [] else [if s[0] == a then b else s[0]] + Replace(s[1..], a, b)
  }

  /** The title starts with sep at position j. */
  predicate StartsAt(s: string, sep: string, j: nat)
  {
    j + |sep| <= |s| && s[j..j + |sep|] == sep
  }

  /** The position of the first sep in s at or after j, or |s| if none. */
  function FirstFrom(s: string, sep: string, j: nat): (k: nat)
    requires j <= |s|
    ensures j <= k <= |s|
    ensures forall i :: j <= i < k ==> !StartsAt(s, sep, i)
    ensures k < |s| ==> StartsAt(s, sep, k)
    decreases |s| - j
  {
    if j + |sep| > |s| then |s|
    else if s[j..j + |sep|] == sep then j
    else if j == |s| then |s|
    else FirstFrom(s, sep, j + 1)
  }

  /** s.split(sep)[0] for a separator of any length: s up to its first sep,
      or all of s when sep does not occur. */
  function BeforeFirst(s: string, sep: string): (r: string)
    ensures |r| <= |s| && r == s[..|r|]
    ensures forall i :: 0 <= i < |r| ==> !StartsAt(s, sep, i)
    ensures |r| < |s| ==> StartsAt(s, sep, |r|)
  {
    s[..FirstFrom(s, sep, 0)]
  }

  // ---------------------------------------------------------------------------
  // The short name
  // ---------------------------------------------------------------------------

  /** The first candidate: the title before 'FTR', dashes and underscores
      turned into spaces, stripped and lower-cased. */
  function Primary(title: string): (r: string)
    ensures '_' !in r && '-' !in r && |r| <= |title|
  {
    var cut := BeforeFirst(title, "FTR");
    var spaced := Replace(Replace(cut, '-', ' '), '_', ' ');
    var stripped := Strip(spaced);
    LowerKeeps(stripped, '_');
    LowerKeeps(stripped, '-');
    Lower(stripped)
  }

  /** The fallback: the title before its first underscore, dashes turned
      into spaces, stripped and lower-cased. */
  function Fallback(title: string): (r: string)
    ensures '_' !in r && '-' !in r && |r| <= |title|
  {
    var cut := Split(title, '_')[0];
    SplitFirst(title, '_');
    var spaced := Replace(cut, '-', ' ');
    var stripped := Strip(spaced);
    LowerKeeps(stripped, '_');
    LowerKeeps(stripped, '-');
    Lower(stripped)
  }

  /** The CPL.shortname property: the first candidate unless it is empty,
      longer than 50 characters, or less than 5 characters shorter than the
      title, in which case the fallback. */
  function ShortNameOf(title: string): string
  {
    var candidate := Primary(title);
    if |candidate| == 0 || |candidate| > 50 || |title| - |candidate| < 5 then Fallback(title) else candidate
  }

  /** Lower-casing creates no character that is not a letter. */
  lemma LowerKeeps(s: string, c: char)
    requires c !in s && !IsUpper(c) && !IsLower(c)
    ensures c !in Lower(s)
  {
  }

  /** Character i of s.lower() is the lower form of character i of s. */
  lemma {:induction false} LowerAt(s: string, i: nat)
    requires i < |s|
    ensures Lower(s)[i] == LowerChar(s[i])
  {
    if i > 0 {
      LowerAt(s[1..], i - 1);
    }
  }

  /** The first piece of a split holds no separator and is no longer than
      the whole. */
  lemma {:induction false} SplitFirst<T>(s: seq<T>, sep: T)
    ensures sep !in Split(s, sep)[0] && |Split(s, sep)[0]| <= |s|
    decreases |s|
  {
    if s != [] && s[0] != sep {
      SplitFirst(s[1..], sep);
    }
  }

  /** A short name: no underscore or dash, no upper-case letter, no white
      space at either end. */
  predicate Clean(r: string)
  {
    '_' !in r && '-' !in r && (forall i :: 0 <= i < |r| ==> !IsUpper(r[i]))
    && (r == [] || (!IsSpace(r[0]) && !IsSpace(r[|r| - 1])))
  }

  lemma PrimaryClean(title: string)
    ensures Clean(Primary(title))
  {
    var cut := BeforeFirst(title, "FTR");
    LowerEnds(Strip(Replace(Replace(cut, '-', ' '), '_', ' ')));
  }

  lemma FallbackClean(title: string)
    ensures Clean(Fallback(title))
  {
    LowerEnds(Strip(Replace(Split(title, '_')[0], '-', ' ')));
  }

  /** shortname is always clean and no longer than the title. */
  lemma ShortNameClean(title: string)
    ensures Clean(ShortNameOf(title)) && |ShortNameOf(title)| <= |title|
  {
    PrimaryClean(title);
    FallbackClean(title);
  }

  /** Lower-casing keeps white space where it is. */
  lemma LowerEnds(s: string)
    requires s == [] || (!IsSpace(s[0]) && !IsSpace(s[|s| - 1]))
    ensures Lower(s) == [] || (!IsSpace(Lower(s)[0]) && !IsSpace(Lower(s)[|s| - 1]))
  {
    if s != [] {
      LowerAt(s, 0);
      LowerAt(s, |s| - 1);
    }
  }

  /** A title whose part before 'FTR' is a usable name keeps it, up to the
      case of its letters. */
  lemma ShortNameBeforeFtr(name: string, rest: string)
    requires 0 < |name| <= 50 && |rest| >= 2
    requires forall i :: 0 <= i < |name| ==> name[i] != '-' && name[i] != '_' && !IsSpace(name[i]) && !IsUpper(name[i])
    requires forall i :: 0 <= i < |name| ==> !StartsAt(name + "FTR" + rest, "FTR", i)
    ensures ShortNameOf(name + "FTR" + rest) == name
  {
    var title := name + "FTR" + rest;
    assert title[|name|..|name| + 3] == "FTR";
    assert forall i :: 0 <= i < |name| ==> title[i] == name[i];
    var cut := BeforeFirst(title, "FTR");
    assert StartsAt(title, "FTR", |name|);
    assert |cut| == |name|;
    assert cut == name;
    ReplaceAbsent(name, '-', ' ');
    ReplaceAbsent(name, '_', ' ');
    StripClean(name);
    LowerNoUpper(name);
  }

  /** A title without 'FTR' whose ends are neither white space, '-' nor
      '_' leaves the first candidate as long as the title, so the name is
      the fallback: the text before the first '_'. */
  lemma ShortNameWithoutFtr(title: string)
    requires title != []
    requires forall i :: 0 <= i < |title| ==> !StartsAt(title, "FTR", i)
    requires title[0] !in "-_" && !IsSpace(title[0])
    requires title[|title| - 1] !in "-_" && !IsSpace(title[|title| - 1])
    ensures ShortNameOf(title) == Fallback(title)
  {
    PrimaryWhole(title);
  }

  /** A title that is already a clean name, without 'FTR' or '_', is its
      own short name. */
  lemma ShortNameOfCleanTitle(title: string)
    requires title != []
    requires forall i :: 0 <= i < |title| ==> !StartsAt(title, "FTR", i)
    requires !IsSpace(title[0]) && !IsSpace(title[|title| - 1])
    requires '_' !in title && '-' !in title && forall i :: 0 <= i < |title| ==> !IsUpper(title[i])
    ensures ShortNameOf(title) == title
  {
    ShortNameWithoutFtr(title);
    ReplaceAbsent(title, '-', ' ');
    StripEnds(title);
    LowerNoUpper(title);
  }

  lemma PrimaryWhole(title: string)
    requires title != []
    requires forall i :: 0 <= i < |title| ==> !StartsAt(title, "FTR", i)
    requires title[0] !in "-_" && !IsSpace(title[0])
    requires title[|title| - 1] !in "-_" && !IsSpace(title[|title| - 1])
    ensures |Primary(title)| == |title|
  {
    assert BeforeFirst(title, "FTR") == title;
    var spaced := Replace(Replace(title, '-', ' '), '_', ' ');
    assert spaced[0] == title[0] && spaced[|title| - 1] == title[|title| - 1];
    StripEnds(spaced);
  }

  lemma ReplaceAbsent(s: string, a: char, b: char)
    requires a !in s
    ensures Replace(s, a, b) == s
  {
    var r := Replace(s, a, b);
    assert forall i :: 0 <= i < |s| ==> r[i] == s[i];
  }

  lemma StripClean(s: string)
    requires forall i :: 0 <= i < |s| ==> !IsSpace(s[i])
    ensures Strip(s) == s
  {
  }

  lemma LowerNoUpper(s: string)
    requires forall i :: 0 <= i < |s| ==> !IsUpper(s[i])
    ensures Lower(s) == s
  {
    var r := Lower(s);
    forall i | 0 <= i < |s|
      ensures r[i] == s[i]
    {
      LowerAt(s, i);
    }
  }

  // ---------------------------------------------------------------------------
  // Edit rates
  // ---------------------------------------------------------------------------

  /** The edit rate text a server reports: numerator, a space, denominator. */
  function EditRateText(a: nat, b: nat): string
  {
    IntText(a) + " " + IntText(b)
  }

  /** Splitting an edit rate text at spaces gives back its two numbers. */
  lemma EditRateTokens(a: nat, b: nat)
    ensures Split(EditRateText(a, b), ' ') == [IntText(a), IntText(b)]
    ensures RequestHandlers.ToInt(RequestHandlers.StrArg(IntText(a))) == Success(a)
    ensures RequestHandlers.ToInt(RequestHandlers.StrArg(IntText(b))) == Success(b)
  {
    RequestHandlers.IntTextRoundTrip(a);
    RequestHandlers.IntTextRoundTrip(b);
    DigitsNoSpace(IntText(a));
    DigitsNoSpace(IntText(b));
    SplitAfter(IntText(a), ' ', IntText(b));
  }

  /** A line break or other white space after the denominator is no
      separator: it stays in the second token and int() strips it, so
      '24 1\n' still gives 24 and 1. */
  lemma EditRateTrailing(a: nat, b: nat, ws: string)
    requires forall i :: 0 <= i < |ws| ==> IsSpace(ws[i]) && ws[i] != ' '
    ensures Split(EditRateText(a, b) + ws, ' ') == [IntText(a), IntText(b) + ws]
    ensures RequestHandlers.ToInt(RequestHandlers.StrArg(IntText(b) + ws)) == Success(b)
  {
    SplitTrailing(a, b, ws);
    RequestHandlers.IntTextTrailing(b, ws);
  }

  lemma SplitTrailing(a: nat, b: nat, ws: string)
    requires ' ' !in ws
    ensures Split(EditRateText(a, b) + ws, ' ') == [IntText(a), IntText(b) + ws]
  {
    RequestHandlers.IntTextRoundTrip(a);
    RequestHandlers.IntTextRoundTrip(b);
    DigitsNoSpace(IntText(a));
    DigitsNoSpace(IntText(b));
    var second := IntText(b) + ws;
    assert ' ' !in second;
    assert EditRateText(a, b) + ws == IntText(a) + [' '] + second;
    SplitAfter(IntText(a), ' ', second);
  }

  lemma {:induction false} DigitsNoSpace(s: string)
    requires AllDigits(s)
    ensures ' ' !in s
  {
    if s != [] {
      DigitsNoSpace(s[..|s| - 1]);
      assert s == s[..|s| - 1] + [s[|s| - 1]];
    }
  }

  // ---------------------------------------------------------------------------
  // The CPL object
  // ---------------------------------------------------------------------------

  class Cpl {
    var uuid: string
    var title: string
    var kind: string
    var duration: int
    var editRateA: int
    var editRateB: int

    /** CPL(): every text field 'Unknown', no duration, edit rate 1/1. */
    constructor ()
      ensures uuid == UNKNOWN && title == UNKNOWN && kind == UNKNOWN
      ensures duration == 0 && editRateA == 1 && editRateB == 1
    {
      uuid := UNKNOWN;
      title := UNKNOWN;
      kind := UNKNOWN;
      duration := 0;
      editRateA := 1;
      editRateB := 1;
    }

    /** CPL(uuid, title, kind, duration, edit_rate_a, edit_rate_b) */
    constructor Of(uuid: string, title: string, kind: string, duration: int, editRateA: int, editRateB: int)
      ensures this.uuid == uuid && this.title == title && this.kind == kind
      ensures this.duration == duration && this.editRateA == editRateA && this.editRateB == editRateB
    {
      this.uuid := uuid;
      this.title := title;
      this.kind := kind;
      this.duration := duration;
      this.editRateA := editRateA;
      this.editRateB := editRateB;
    }

    /** parse_edit_rate: the first space-separated token becomes edit_rate_a,
        then the second becomes edit_rate_b.  The assignments happen one
        after the other, so a text with a good first token and a missing or
        bad second one sets edit_rate_a before failing. */
    method ParseEditRate(editRate: string) returns (error: Option<PyError>)
      modifies this
      ensures uuid == old(uuid) && title == old(title) && kind == old(kind) && duration == old(duration)
      ensures var t := Split(editRate, ' '); var first := RequestHandlers.ToInt(RequestHandlers.StrArg(t[0]));
        (first.Failure? ==> error == Some(first.error) && editRateA == old(editRateA) && editRateB == old(editRateB))
        && (first.Success? ==> editRateA == first.value)
        && (first.Success? && |t| < 2 ==> error == Some(IndexError) && editRateB == old(editRateB))
        && (first.Success? && |t| >= 2 ==>
              var second := RequestHandlers.ToInt(RequestHandlers.StrArg(t[1]));
              (second.Failure? ==> error == Some(second.error) && editRateB == old(editRateB))
              && (second.Success? ==> error == None && editRateB == second.value))
    {
      var tokens := Split(editRate, ' ');
      var first := RequestHandlers.ToInt(RequestHandlers.StrArg(tokens[0]));
      if first.Failure? {
        return Some(first.error);
      }
      SetEditRateA(first.value);
      if |tokens| < 2 {
        return Some(IndexError);
      }
      var second := RequestHandlers.ToInt(RequestHandlers.StrArg(tokens[1]));
      if second.Failure? {
        return Some(second.error);
      }
      SetEditRateB(second.value);
      error := None;
    }

    /** self.edit_rate_a = a, every other field kept. */
    method SetEditRateA(a: int)
      modifies this
      ensures uuid == old(uuid) && title == old(title) && kind == old(kind) && duration == old(duration)
      ensures editRateA == a && editRateB == old(editRateB)
    {
      editRateA := a;
    }

    /** self.edit_rate_b = b, every other field kept. */
    method SetEditRateB(b: int)
      modifies this
      ensures uuid == old(uuid) && title == old(title) && kind == old(kind) && duration == old(duration)
      ensures editRateA == old(editRateA) && editRateB == b
    {
      editRateB := b;
    }

    /** from_cpl_info: a reply for the nil identifier changes nothing;
        any other reply is copied in. */
    method FromCplInfo(info: CplInfo)
      modifies this
      ensures info.id == NIL_UUID ==>
        uuid == old(uuid) && title == old(title) && kind == old(kind)
        && duration == old(duration) && editRateA == old(editRateA) && editRateB == old(editRateB)
      ensures info.id != NIL_UUID ==>
        uuid == info.id && title == info.contentTitleText && kind == info.contentKindText
        && duration == info.duration && editRateA == info.editRateA && editRateB == info.editRateB
    {
      if info.id != NIL_UUID {
        uuid := info.id;
        title := info.contentTitleText;
        kind := info.contentKindText;
        duration := info.duration;
        editRateA := info.editRateA;
        editRateB := info.editRateB;
      }
    }

    /** The shortname property. */
    function ShortName(): (r: string)
      reads this
      ensures Clean(r) && |r| <= |title|
    {
      ShortNameClean(title);
      ShortNameOf(title)
    }
  }
}
