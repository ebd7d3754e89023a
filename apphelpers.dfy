/**
 * The pure helpers of the application shell: the theme colour parser, the
 * user's initials, title case, the resident form's normalisation and its
 * building match, the block/apartment grouping of the residents list and the
 * semicolon-separated resident importer.
 */
module AppHelpers {
  import opened Wrappers
  import opened Text
  import opened Seqs
  import opened Entities
  import opened Adapters

  // ---------------------------------------------------------------- colours

  datatype Rgb = Rgb(r: nat, g: nat, b: nat)

  predicate IsByte(c: Rgb)
  {
    c.r < 256 && c.g < 256 && c.b < 256
  }

  /**
   * What `/^#?([a-f\d]{2})([a-f\d]{2})([a-f\d]{2})$/i` accepts: an optional
   * `#` and then exactly six hexadecimal digits of either case.
   */
  predicate IsHexColour(hex: string)
  {
    (|hex| == 6 && AllHexDigits(hex)) || (|hex| == 7 && hex[0] == '#' && AllHexDigits(hex[1..]))
  }

  /** The six digits of a colour, without its `#`. */
  function HexDigitsOf(hex: string): (d: string)
    requires IsHexColour(hex)
    ensures |d| == 6 && AllHexDigits(d)
  {
    if |hex| == 7 then hex[1..] else hex
  }

  /** `parseInt(pair, 16)` for a pair of hexadecimal digits. */
  function HexPair(hi: char, lo: char): (v: nat)
    requires IsHexDigit(hi) && IsHexDigit(lo)
    ensures v < 256
  {
    16 * HexValue(hi) + HexValue(lo)
  }

  /**
   * `hexToRgb`: the three channels of a colour written as six hexadecimal
   * digits, or `None` (`null`) for any other text.
   */
  function HexToRgb(hex: string): (c: Option<Rgb>)
    ensures c.Some? <==> IsHexColour(hex)
    ensures c.Some? ==> IsByte(c.value)
  {
    var body := if |hex| == 7 && hex[0] == '#' then hex[1..] else hex;
    if |body| == 6 && AllHexDigits(body) then
      Some(Rgb(HexPair(body[0], body[1]), HexPair(body[2], body[3]), HexPair(body[4], body[5])))
    else None
  }

  /** The two lower-case hexadecimal digits of a byte. */
  function HexByte(v: nat): (s: string)
    requires v < 256
    ensures |s| == 2 && AllHexDigits(s) && HexPair(s[0], s[1]) == v
  {
    [HexChar(v / 16), HexChar(v % 16)]
  }

  /** The canonical spelling of a colour: `#` and six lower-case digits. */
  function RgbHex(c: Rgb): (s: string)
    requires IsByte(c)
    ensures IsHexColour(s) && s[0] == '#'
  {
    "#" + HexByte(c.r) + HexByte(c.g) + HexByte(c.b)
  }

  /** Every colour survives being written out and parsed back. */
  lemma RgbHexRoundTrip(c: Rgb)
    requires IsByte(c)
    ensures HexToRgb(RgbHex(c)) == Some(c)
  {
    var s := RgbHex(c);
    assert s[1..] == HexByte(c.r) + HexByte(c.g) + HexByte(c.b);
  }

  lemma PairDigits(hi: char, lo: char)
    requires IsHexDigit(hi) && IsHexDigit(lo)
    ensures HexByte(HexPair(hi, lo)) == [LowerChar(hi), LowerChar(lo)]
  {
    var a, b := HexValue(hi), HexValue(lo);
    SplitByte(a, b);
    HexCharOfValue(hi);
    HexCharOfValue(lo);
  }

  /** A byte's two hexadecimal places. */
  lemma SplitByte(a: nat, b: nat)
    requires a < 16 && b < 16
    ensures (16 * a + b) / 16 == a && (16 * a + b) % 16 == b
  {
  }

  /** Writing a digit's value back gives the digit in lower case. */
  lemma HexCharOfValue(c: char)
    requires IsHexDigit(c)
    ensures HexChar(HexValue(c)) == LowerChar(c)
  {
  }

  /**
   * Parsing a colour and writing it back gives the same digits, lower-cased,
   * after a `#`: the parser reads nothing but the six digits.
   */
  lemma HexToRgbRoundTrip(hex: string)
    requires IsHexColour(hex)
    ensures HexToRgb(hex).Some?
    ensures RgbHex(HexToRgb(hex).value) == "#" + Lower(HexDigitsOf(hex))
  {
    var d := HexDigitsOf(hex);
    PairDigits(d[0], d[1]);
    PairDigits(d[2], d[3]);
    PairDigits(d[4], d[5]);
    assert Lower(d) == [LowerChar(d[0]), LowerChar(d[1])] + [LowerChar(d[2]), LowerChar(d[3])] + [LowerChar(d[4]), LowerChar(d[5])];
  }

  // ---------------------------------------------------------------- initials

  /** `n[0]` as text in a join: the first character of a word, nothing for an empty word. */
  function FirstChar(w: string): string
  {
    if w == "" then "" else [w[0]]
  }

  /** The first two space-separated words of a name, or the only one. */
  function FirstTwo(words: seq<string>): (r: seq<string>)
    ensures |r| <= 2 && |r| <= |words| && r == words[..|r|]
    ensures |r| == 2 || r == words
  {
    if |words| <= 2 then words else words[..2]
  }

  /**
   * `initials`: the first characters of the name's first two space-separated
   * words, upper-cased; an empty word adds nothing.
   */
  function Initials(name: string): (r: string)
    ensures |r| <= 2
  {
    var firsts := Map(FirstTwo(Split(name, ' ')), FirstChar);
    assert |firsts| == 2 ==> Join(firsts, "") == firsts[0] + firsts[1];
    Upper(Join(firsts, ""))
  }

  /** A name of two or more words gives the upper-cased first letters of the first two. */
  lemma InitialsOfFullName(words: seq<string>)
    requires |words| >= 2 && words[0] != "" && words[1] != ""
    requires forall i :: 0 <= i < |words| ==> ' ' !in words[i]
    ensures Initials(Join(words, " ")) == [UpperChar(words[0][0]), UpperChar(words[1][0])]
  {
    SplitJoin(words, ' ');
    FirstTwoInitials(words);
  }

  lemma FirstTwoInitials(words: seq<string>)
    requires |words| >= 2 && words[0] != "" && words[1] != ""
    ensures Join(Map(FirstTwo(words), FirstChar), "") == [words[0][0], words[1][0]]
  {
    var firsts := Map(FirstTwo(words), FirstChar);
    assert firsts == [[words[0][0]], [words[1][0]]];
    assert firsts[1..] == [[words[1][0]]];
    assert Join(firsts[1..], "") == [words[1][0]];
    assert Join(firsts, "") == [words[0][0]] + "" + [words[1][0]];
  }

  /** A one-word name gives its upper-cased first letter. */
  lemma InitialsOfSingleName(w: string)
    requires w != "" && ' ' !in w
    ensures Initials(w) == [UpperChar(w[0])]
  {
    SplitNoSeparator(w, ' ');
  }

  // ---------------------------------------------------------------- title case

  /** `word.charAt(0).toUpperCase() + word.slice(1)`. */
  function Capitalize(w: string): (r: string)
    ensures |r| == |w|
  {
    if w == "" then "" else [UpperChar(w[0])] + w[1..]
  }

  lemma LowerAppend(a: string, b: string)
    ensures Lower(a + b) == Lower(a) + Lower(b)
  {
    assert forall i :: 0 <= i < |a + b| ==> Lower(a + b)[i] == (Lower(a) + Lower(b))[i];
  }

  /** Lower-casing a space-joined list lower-cases each piece. */
  lemma {:induction false} LowerJoinSpaces(parts: seq<string>)
    ensures Lower(Join(parts, " ")) == Join(Map(parts, Lower), " ")
  {
    if |parts| > 1 {
      LowerJoinSpaces(parts[1..]);
      LowerAppend(parts[0] + " ", Join(parts[1..], " "));
      LowerAppend(parts[0], " ");
      assert Map(parts, Lower)[1..] == Map(parts[1..], Lower);
    }
  }

  lemma CapitalizeLower(w: string)
    ensures Lower(Capitalize(w)) == Lower(w)
  {
    if w != "" {
      LowerOfUpperChar(w[0]);
      assert forall i :: 0 <= i < |w| ==> Lower(Capitalize(w))[i] == Lower(w)[i];
    }
  }

  /** Neither case mapping makes a space out of another character. */
  lemma NoSpaceUnderCase(w: string)
    ensures ' ' !in w ==> ' ' !in Lower(w) && ' ' !in Capitalize(w)
  {
  }

  /**
   * `toTitleCase`: the text lower-cased, then the first character of every
   * space-separated word upper-cased. Only letters change case, so the text
   * keeps its length and its lower-case form.
   */
  function ToTitleCase(s: string): (r: string)
    ensures |r| == |s|
    ensures Lower(r) == Lower(s)
  {
    if s == "" then ""
    else
      var words := Split(Lower(s), ' ');
      var r := Join(Map(words, Capitalize), " ");
      LowerJoinSpaces(Map(words, Capitalize));
      forall i | 0 <= i < |words| {
        CapitalizeLower(words[i]);
      }
      assert Map(Map(words, Capitalize), Lower) == Map(words, Lower);
      LowerJoinSpaces(words);
      LowerIdempotent(s);
      r
  }

  /** The pieces of a lower-cased text are the lower-cased pieces of the text. */
  lemma SplitLower(s: string)
    ensures Split(Lower(s), ' ') == Map(Split(s, ' '), Lower)
  {
    var parts := Split(s, ' ');
    LowerJoinSpaces(parts);
    forall i | 0 <= i < |parts| {
      NoSpaceUnderCase(parts[i]);
    }
    SplitJoin(Map(parts, Lower), ' ');
  }

  /**
   * Every space-separated word of `toTitleCase(s)` is the matching word of `s`
   * lower-cased with its first character upper-cased, and there are as many.
   */
  lemma TitleCaseWords(s: string)
    requires s != ""
    ensures var words := Split(s, ' ');
            var out := Split(ToTitleCase(s), ' ');
            |out| == |words| && forall i :: 0 <= i < |words| ==> out[i] == Capitalize(Lower(words[i]))
  {
    SplitLower(s);
    var lowered := Split(Lower(s), ' ');
    forall i | 0 <= i < |lowered| {
      NoSpaceUnderCase(lowered[i]);
    }
    SplitJoin(Map(lowered, Capitalize), ' ');
  }

  /** Title-casing twice is title-casing once. */
  lemma TitleCaseIdempotent(s: string)
    ensures ToTitleCase(ToTitleCase(s)) == ToTitleCase(s)
  {
  }

  /** A character is white space exactly when its lower-case form is. */
  lemma SpaceUnderLower(c: char)
    ensures IsSpace(LowerChar(c)) <==> IsSpace(c)
  {
  }

  /** Two texts equal up to case have white space in the same places, so trimming agrees. */
  lemma SameLowerTrimmed(s: string, t: string)
    requires Lower(s) == Lower(t) && Trimmed(s)
    ensures Trimmed(t)
  {
    if t != [] {
      SpaceUnderLower(s[0]);
      SpaceUnderLower(t[0]);
      SpaceUnderLower(s[|s| - 1]);
      SpaceUnderLower(t[|t| - 1]);
    }
  }

  lemma UpperIdempotent(s: string)
    ensures Upper(Upper(s)) == Upper(s)
  {
  }

  /** Upper-casing moves no white space, so a trimmed text stays trimmed. */
  lemma UpperTrimmed(s: string)
    requires Trimmed(s)
    ensures Trimmed(Upper(s))
  {
  }

  // ---------------------------------------------------------------- resident form

  /**
   * The normalisation `handleResidentFormSubmit` applies before saving: the
   * apartment trimmed, the block trimmed and upper-cased, the building name
   * trimmed and title-cased; every other field as typed.
   */
  function NormalizeResident(form: Resident): (r: Resident)
    ensures Trimmed(r.apt) && Trimmed(r.block) && Trimmed(r.condo)
    ensures Upper(r.block) == r.block
    ensures Lower(r.condo) == Lower(Trim(form.condo))
    ensures r.id == form.id && r.name == form.name && r.phone == form.phone && r.active == form.active
  {
    var condo := ToTitleCase(Trim(form.condo));
    SameLowerTrimmed(Trim(form.condo), condo);
    UpperTrimmed(Trim(form.block));
    UpperIdempotent(Trim(form.block));
    form.(apt := Trim(form.apt), block := Upper(Trim(form.block)), condo := condo)
  }

  /** A normalised form is left as it is by a second normalisation. */
  lemma NormalizeIdempotent(form: Resident)
    ensures NormalizeResident(NormalizeResident(form)) == NormalizeResident(form)
  {
    var r := NormalizeResident(form);
    TitleCaseIdempotent(Trim(form.condo));
  }

  /** The backend's buildings whose name equals `name` up to case: the first, if any. */
  function MatchCondo(db: seq<DbCondominio>, name: string): (r: Option<DbCondominio>)
    ensures r.Some? ==> r.value in db && Lower(r.value.nome) == Lower(name)
    ensures r.None? <==> forall k :: 0 <= k < |db| ==> Lower(db[k].nome) != Lower(name)
  {
    Find(db, (c: DbCondominio) => Lower(c.nome) == Lower(name))
  }

  /**
   * What submitting the resident form decides before any backend call:
   * nothing without a name, an error without a matching building, otherwise
   * the normalised record and the building it is filed under.
   */
  datatype ResidentSubmit = Ignored | CondoNotFound | Save(resident: Resident, condo: DbCondominio)

  function SubmitResident(form: Resident, db: seq<DbCondominio>): (r: ResidentSubmit)
    ensures r.Ignored? <==> form.name == ""
    ensures r.CondoNotFound? <==> form.name != "" && forall k :: 0 <= k < |db| ==> Lower(db[k].nome) != Lower(Trim(form.condo))
    ensures r.Save? ==> r.resident == NormalizeResident(form) && r.condo in db
    ensures r.Save? ==> Lower(r.condo.nome) == Lower(Trim(form.condo))
  {
    if form.name == "" then Ignored
    else
      var normalized := NormalizeResident(form);
      match MatchCondo(db, normalized.condo)
      case None => CondoNotFound
      case Some(c) => Save(normalized, c)
  }

  // ---------------------------------------------------------------- grouping

  /**
   * The residents page's search: an empty query, or one found in the name,
   * apartment or block ignoring case, or in the phone number as typed.
   */
  predicate ResidentSearchMatch(r: Resident, query: string)
  {
    query == ""
    || Includes(Lower(r.name), Lower(query))
    || Includes(Lower(r.apt), Lower(query))
    || Includes(Lower(r.block), Lower(query))
    || Includes(r.phone, query)
  }

  /** The search and the building selector (`all`, or one building's exact name). */
  predicate Shown(r: Resident, query: string, condoFilter: string)
  {
    ResidentSearchMatch(r, query) && (condoFilter == "all" || r.condo == condoFilter)
  }

  /** `residents.filter(...)` with the search and the building selector, in list order. */
  function ShownResidents(rs: seq<Resident>, query: string, condoFilter: string): seq<Resident>
  {
    if rs == [] then []
    else ShownResidents(rs[..|rs| - 1], query, condoFilter)
         + (if Shown(rs[|rs| - 1], query, condoFilter) then [rs[|rs| - 1]] else [])
  }

  lemma {:induction false} ShownMember(rs: seq<Resident>, query: string, condoFilter: string, x: Resident)
    ensures x in ShownResidents(rs, query, condoFilter) <==> x in rs && Shown(x, query, condoFilter)
  {
    if rs != [] {
      ShownMember(rs[..|rs| - 1], query, condoFilter, x);
      assert rs == rs[..|rs| - 1] + [rs[|rs| - 1]];
    }
  }

  /** The block a resident is filed under: its block trimmed and upper-cased. */
  function BlockKey(r: Resident): string
  {
    Upper(Trim(r.block))
  }

  /** The apartment a resident is filed under: `apt.toString().trim()`. */
  function AptKey(r: Resident): string
  {
    Trim(r.apt)
  }

  /** Residents by block key, then by apartment key. */
  type Groups = map<string, map<string, seq<Resident>>>

  // The grouping facts below hold for any pair of key functions `bk` and
  // `ak`; the page uses `BlockKey` and `AptKey`.

  /** One pass of the `reduce`: the resident pushed onto its apartment's list, creating what is missing. */
  function AddToGroups(g: Groups, r: Resident, bk: Resident -> string, ak: Resident -> string): Groups
  {
    var inner := if bk(r) in g then g[bk(r)] else map[];
    var bucket := if ak(r) in inner then inner[ak(r)] else [];
    g[bk(r) := inner[ak(r) := bucket + [r]]]
  }

  predicate InBucket(r: Resident, block: string, apt: string, bk: Resident -> string, ak: Resident -> string)
  {
    bk(r) == block && ak(r) == apt
  }

  /** The residents of a list filed under one block and apartment, in list order. */
  function Bucket(rs: seq<Resident>, block: string, apt: string, bk: Resident -> string, ak: Resident -> string): seq<Resident>
  {
    if rs == [] then []
    else Bucket(rs[..|rs| - 1], block, apt, bk, ak)
         + (if InBucket(rs[|rs| - 1], block, apt, bk, ak) then [rs[|rs| - 1]] else [])
  }

  lemma {:induction false} BucketMember(rs: seq<Resident>, block: string, apt: string, bk: Resident -> string, ak: Resident -> string, x: Resident)
    ensures x in Bucket(rs, block, apt, bk, ak) <==> x in rs && InBucket(x, block, apt, bk, ak)
  {
    if rs != [] {
      BucketMember(rs[..|rs| - 1], block, apt, bk, ak, x);
      assert rs == rs[..|rs| - 1] + [rs[|rs| - 1]];
    }
  }

  /** Every list `g` holds is exactly the residents of `rs` with that block and apartment key, and not empty. */
  predicate BucketsExact(g: Groups, rs: seq<Resident>, bk: Resident -> string, ak: Resident -> string)
  {
    forall b, a :: b in g && a in g[b] ==> g[b][a] == Bucket(rs, b, a, bk, ak) && g[b][a] != []
  }

  /** Every block `g` holds has some apartment. */
  predicate BlocksInhabited(g: Groups)
  {
    forall b :: b in g ==> g[b] != map[]
  }

  /** Every resident of `rs` is filed under its own keys. */
  predicate AllFiled(g: Groups, rs: seq<Resident>, bk: Resident -> string, ak: Resident -> string)
  {
    forall k :: 0 <= k < |rs| ==> bk(rs[k]) in g && ak(rs[k]) in g[bk(rs[k])]
  }

  /** `g` is the grouping of `rs`: the three facts above, which determine it. */
  predicate GroupsOf(g: Groups, rs: seq<Resident>, bk: Resident -> string, ak: Resident -> string)
  {
    BucketsExact(g, rs, bk, ak) && BlocksInhabited(g) && AllFiled(g, rs, bk, ak)
  }

  lemma {:induction false} BucketEmpty(rs: seq<Resident>, block: string, apt: string, bk: Resident -> string, ak: Resident -> string)
    requires forall k :: 0 <= k < |rs| ==> !InBucket(rs[k], block, apt, bk, ak)
    ensures Bucket(rs, block, apt, bk, ak) == []
  {
    if rs != [] {
      BucketEmpty(rs[..|rs| - 1], block, apt, bk, ak);
    }
  }

  lemma BucketSnoc(rs: seq<Resident>, r: Resident, block: string, apt: string, bk: Resident -> string, ak: Resident -> string)
    ensures Bucket(rs + [r], block, apt, bk, ak)
            == Bucket(rs, block, apt, bk, ak) + (if InBucket(r, block, apt, bk, ak) then [r] else [])
  {
    assert (rs + [r])[..|rs|] == rs;
  }

  /** Keys under which nothing is filed belong to no resident of the list. */
  lemma UnfiledKeys(g: Groups, rs: seq<Resident>, block: string, apt: string, bk: Resident -> string, ak: Resident -> string)
    requires AllFiled(g, rs, bk, ak) && !(block in g && apt in g[block])
    ensures Bucket(rs, block, apt, bk, ak) == []
  {
    assert forall k :: 0 <= k < |rs| ==> !InBucket(rs[k], block, apt, bk, ak);
    BucketEmpty(rs, block, apt, bk, ak);
  }

  /** The list the new resident joins: the old one, or a fresh one, with the resident at its end. */
  lemma JoinedBucket(g: Groups, rs: seq<Resident>, r: Resident, bk: Resident -> string, ak: Resident -> string)
    requires BucketsExact(g, rs, bk, ak) && AllFiled(g, rs, bk, ak)
    ensures var g' := AddToGroups(g, r, bk, ak);
            bk(r) in g' && ak(r) in g'[bk(r)]
            && g'[bk(r)][ak(r)] == Bucket(rs + [r], bk(r), ak(r), bk, ak)
  {
    var b, a := bk(r), ak(r);
    BucketSnoc(rs, r, b, a, bk, ak);
    if !(b in g && a in g[b]) {
      UnfiledKeys(g, rs, b, a, bk, ak);
    }
  }

  /** Every other list is unchanged, and so is the list of residents it describes. */
  lemma OtherBucket(g: Groups, rs: seq<Resident>, r: Resident, b: string, a: string, bk: Resident -> string, ak: Resident -> string)
    requires BucketsExact(g, rs, bk, ak)
    requires b in AddToGroups(g, r, bk, ak) && a in AddToGroups(g, r, bk, ak)[b] && !InBucket(r, b, a, bk, ak)
    ensures b in g && a in g[b] && AddToGroups(g, r, bk, ak)[b][a] == Bucket(rs + [r], b, a, bk, ak)
  {
    BucketSnoc(rs, r, b, a, bk, ak);
  }

  lemma ExactStep(g: Groups, rs: seq<Resident>, r: Resident, bk: Resident -> string, ak: Resident -> string)
    requires BucketsExact(g, rs, bk, ak) && AllFiled(g, rs, bk, ak)
    ensures BucketsExact(AddToGroups(g, r, bk, ak), rs + [r], bk, ak)
  {
    var g' := AddToGroups(g, r, bk, ak);
    JoinedBucket(g, rs, r, bk, ak);
    forall b, a | b in g' && a in g'[b]
      ensures g'[b][a] == Bucket(rs + [r], b, a, bk, ak) && g'[b][a] != []
    {
      if !InBucket(r, b, a, bk, ak) {
        OtherBucket(g, rs, r, b, a, bk, ak);
      }
    }
  }

  lemma FiledStep(g: Groups, rs: seq<Resident>, r: Resident, bk: Resident -> string, ak: Resident -> string)
    requires AllFiled(g, rs, bk, ak)
    ensures AllFiled(AddToGroups(g, r, bk, ak), rs + [r], bk, ak)
  {
    var g' := AddToGroups(g, r, bk, ak);
    var rs' := rs + [r];
    forall k | 0 <= k < |rs'|
      ensures bk(rs'[k]) in g' && ak(rs'[k]) in g'[bk(rs'[k])]
    {
      if k < |rs| {
        assert rs'[k] == rs[k];
      }
    }
  }

  lemma GroupsStep(g: Groups, rs: seq<Resident>, r: Resident, bk: Resident -> string, ak: Resident -> string)
    requires GroupsOf(g, rs, bk, ak)
    ensures GroupsOf(AddToGroups(g, r, bk, ak), rs + [r], bk, ak)
  {
    ExactStep(g, rs, r, bk, ak);
    FiledStep(g, rs, r, bk, ak);
    InhabitedStep(g, r, bk, ak);
  }

  lemma InhabitedStep(g: Groups, r: Resident, bk: Resident -> string, ak: Resident -> string)
    requires BlocksInhabited(g)
    ensures BlocksInhabited(AddToGroups(g, r, bk, ak))
  {
    var g' := AddToGroups(g, r, bk, ak);
    forall b | b in g'
      ensures g'[b] != map[]
    {
      if b == bk(r) {
        assert ak(r) in g'[b];
      }
    }
  }

  lemma GroupsStepAt(g: Groups, s: seq<Resident>, i: nat, bk: Resident -> string, ak: Resident -> string)
    requires i < |s| && GroupsOf(g, s[..i], bk, ak)
    ensures GroupsOf(AddToGroups(g, s[i], bk, ak), s[..i + 1], bk, ak)
  {
    assert s[..i + 1] == s[..i] + [s[i]];
    GroupsStep(g, s[..i], s[i], bk, ak);
  }

  /**
   * `groupedResidentsByBlock`: the residents that pass the search and the
   * building selector, grouped by trimmed upper-cased block and trimmed
   * apartment. Each list holds exactly the shown residents with those keys, in
   * list order; every shown resident is filed, under its own keys.
   */
  method GroupResidentsByBlock(residents: seq<Resident>, query: string, condoFilter: string) returns (groups: Groups)
    ensures GroupsOf(groups, ShownResidents(residents, query, condoFilter), BlockKey, AptKey)
  {
    var shown := ShownResidents(residents, query, condoFilter);
    groups := map[];
    var i := 0;
    while i < |shown|
      invariant i <= |shown|
      invariant GroupsOf(groups, shown[..i], BlockKey, AptKey)
    {
      GroupsStepAt(groups, shown, i, BlockKey, AptKey);
      groups := AddToGroups(groups, shown[i], BlockKey, AptKey);
      i := i + 1;
    }
    assert shown[..i] == shown;
  }

  /**
   * What the grouping means for one resident: it is filed under its own keys
   * when it passes the filters, and whatever is filed passed them and carries
   * the keys it is filed under.
   */
  lemma GroupedMembers(g: Groups, residents: seq<Resident>, query: string, condoFilter: string, x: Resident)
    requires GroupsOf(g, ShownResidents(residents, query, condoFilter), BlockKey, AptKey)
    ensures x in residents && Shown(x, query, condoFilter) ==>
              BlockKey(x) in g && AptKey(x) in g[BlockKey(x)] && x in g[BlockKey(x)][AptKey(x)]
    ensures forall b, a :: b in g && a in g[b] && x in g[b][a] ==>
              x in residents && Shown(x, query, condoFilter) && BlockKey(x) == b && AptKey(x) == a
  {
    var shown := ShownResidents(residents, query, condoFilter);
    ShownMember(residents, query, condoFilter, x);
    if x in shown {
      var k :| 0 <= k < |shown| && shown[k] == x;
      BucketMember(shown, BlockKey(x), AptKey(x), BlockKey, AptKey, x);
    }
    forall b, a | b in g && a in g[b] && x in g[b][a]
      ensures x in residents && Shown(x, query, condoFilter) && BlockKey(x) == b && AptKey(x) == a
    {
      BucketMember(shown, b, a, BlockKey, AptKey, x);
    }
  }

  // ---------------------------------------------------------------- CSV import

  /** `text.replace(/\r\n/g, '\n')`. */
  function NormalizeNewlines(s: string): (r: string)
    ensures '\r' !in s ==> r == s
  {
    if |s| >= 2 && s[0] == '\r' && s[1] == '\n' then "\n" + NormalizeNewlines(s[2..])
    else if s == [] then []
    else [s[0]] + NormalizeNewlines(s[1..])
  }

  lemma {:induction false} NormalizeAfterPlain(a: string, b: string)
    requires '\r' !in a
    ensures NormalizeNewlines(a + b) == a + NormalizeNewlines(b)
  {
    if a != [] {
      assert (a + b)[1..] == a[1..] + b;
      NormalizeAfterPlain(a[1..], b);
    } else {
      assert a + b == b;
    }
  }

  /** A file saved with CRLF line ends reads as the same lines as one saved with LF. */
  lemma {:induction false} CrlfLines(lines: seq<string>)
    requires forall i :: 0 <= i < |lines| ==> '\r' !in lines[i]
    ensures NormalizeNewlines(Join(lines, "\r\n")) == Join(lines, "\n")
  {
    if |lines| > 1 {
      CrlfLines(lines[1..]);
      var rest := Join(lines[1..], "\r\n");
      assert Join(lines, "\r\n") == lines[0] + ("\r\n" + rest);
      NormalizeAfterPlain(lines[0], "\r\n" + rest);
      assert ("\r\n" + rest)[2..] == rest;
    }
  }

  /** The non-blank lines of an uploaded text, line breaks normalised first. */
  function CsvLines(text: string): (lines: seq<string>)
    ensures forall i :: 0 <= i < |lines| ==> '\n' !in lines[i] && Trim(lines[i]) != ""
  {
    Filter(Split(NormalizeNewlines(text), '\n'), (l: string) => Trim(l) != "")
  }

  /** A header line, skipped when it comes first, mentions `nome` in any case. */
  predicate IsHeader(line: string)
  {
    Includes(Lower(line), "nome")
  }

  /** The `k`-th field of a split line; a missing one is `undefined`, as falsy as an empty one. */
  function Field(fields: seq<string>, k: nat): string
  {
    if k < |fields| then fields[k] else ""
  }

  /** `s.replace(/\r/g, '')`. */
  function RemoveCarriageReturns(s: string): (r: string)
    ensures '\r' !in r
    ensures '\r' !in s ==> r == s
    ensures s != [] && s[0] != '\r' ==> r != [] && r[0] == s[0]
    ensures s != [] && s[|s| - 1] != '\r' ==> r != [] && r[|r| - 1] == s[|s| - 1]
  {
    if s == [] then []
    else (if s[0] == '\r' then [] else [s[0]]) + RemoveCarriageReturns(s[1..])
  }

  /** The five fields a data line must carry, `name;apt;block;phone;condo`, each present and non-empty. */
  predicate Acceptable(fields: seq<string>)
  {
    Field(fields, 0) != "" && Field(fields, 1) != "" && Field(fields, 2) != ""
    && Field(fields, 3) != "" && Field(fields, 4) != ""
  }

  /**
   * One data line: accepted only when its first five fields are acceptable
   * (further fields are ignored), stored trimmed, the block upper-cased, the
   * building stripped of carriage returns and title-cased, active.
   */
  function RowResident(line: string, id: nat): (r: Option<Resident>)
    ensures r.Some? <==> Acceptable(Split(line, ';'))
    ensures r.Some? ==> r.value.id == id && r.value.active
  {
    var f := Split(line, ';');
    if Acceptable(f) then
      Some(Resident(id, Trim(Field(f, 0)), Trim(Field(f, 1)), Upper(Trim(Field(f, 2))), Trim(Field(f, 3)),
                    ToTitleCase(RemoveCarriageReturns(Trim(Field(f, 4)))), true))
    else None
  }

  /** The importer's trimming and casing is the form's normalisation, and doing it again changes nothing. */
  lemma NormalizedRow(r: Resident, block: string, condo: string)
    requires r.apt == Trim(r.apt) && r.block == Upper(Trim(block))
    requires r.condo == ToTitleCase(RemoveCarriageReturns(Trim(condo)))
    ensures NormalizeResident(r) == r
  {
    var c := RemoveCarriageReturns(Trim(condo));
    assert Trimmed(c);
    SameLowerTrimmed(c, r.condo);
    TitleCaseIdempotent(c);
    UpperTrimmed(Trim(block));
    UpperIdempotent(Trim(block));
  }

  /** An imported resident is one the resident form would store unchanged. */
  lemma RowIsNormalized(line: string, id: nat)
    requires RowResident(line, id).Some?
    ensures Trimmed(RowResident(line, id).value.name) && Trimmed(RowResident(line, id).value.phone)
    ensures NormalizeResident(RowResident(line, id).value) == RowResident(line, id).value
  {
    var f := Split(line, ';');
    NormalizedRow(RowResident(line, id).value, Field(f, 2), Field(f, 4));
  }

  /** A line written from five or more non-empty fields reads back as those fields, trimmed and cased. */
  lemma RowFromFields(fields: seq<string>, id: nat)
    requires |fields| >= 5
    requires forall k :: 0 <= k < |fields| ==> ';' !in fields[k] && fields[k] != ""
    ensures RowResident(Join(fields, [';']), id)
            == Some(Resident(id, Trim(fields[0]), Trim(fields[1]), Upper(Trim(fields[2])), Trim(fields[3]),
                             ToTitleCase(RemoveCarriageReturns(Trim(fields[4]))), true))
  {
    SplitJoin(fields, ';');
    assert Acceptable(Split(Join(fields, [';']), ';')) by {
      assert Split(Join(fields, [';']), ';') == fields;
      assert fields[0] != "" && fields[1] != "" && fields[2] != "" && fields[3] != "" && fields[4] != "";
    }
  }

  /** Where the data starts: after the first line when that one is a header. */
  function StartIndex(lines: seq<string>): (k: nat)
    ensures k <= |lines| && k <= 1
    ensures k == 1 <==> lines != [] && IsHeader(lines[0])
  {
    if lines != [] && IsHeader(lines[0]) then 1 else 0
  }

  // The reading facts below hold for any way `row` of reading one line; the
  // upload reads with `RowResident`.

  /** The rows read from `lines[start..end]`, line `i` read with the id `now + i`. */
  function RowsBetween(lines: seq<string>, start: nat, end: nat, now: nat, row: (string, nat) -> Option<Resident>): seq<Resident>
    requires start <= end <= |lines|
    decreases end
  {
    if start == end then []
    else
      RowsBetween(lines, start, end - 1, now, row)
      + (match row(lines[end - 1], now + (end - 1))
         case Some(r) => [r]
         case None => [])
  }

  /** Some line of `lines[start..end]` reads as `r`. */
  predicate ReadBetween(lines: seq<string>, start: nat, end: nat, now: nat, row: (string, nat) -> Option<Resident>, r: Resident)
    requires start <= end <= |lines|
  {
    exists i :: start <= i < end && row(lines[i], now + i) == Some(r)
  }

  /** Every row of `rows` is read from some line of `lines[start..end]`. */
  predicate FromLines(rows: seq<Resident>, lines: seq<string>, start: nat, end: nat, now: nat, row: (string, nat) -> Option<Resident>)
    requires start <= end <= |lines|
  {
    forall k :: 0 <= k < |rows| ==> ReadBetween(lines, start, end, now, row, rows[k])
  }

  predicate IdsBetween(rows: seq<Resident>, lo: int, hi: int)
  {
    forall k :: 0 <= k < |rows| ==> lo <= rows[k].id < hi
  }

  predicate IdsIncreasing(rows: seq<Resident>)
  {
    forall k :: 0 <= k < |rows| - 1 ==> rows[k].id < rows[k + 1].id
  }

  /** An active resident the resident form would store unchanged. */
  predicate IsStored(r: Resident)
  {
    r.active && NormalizeResident(r) == r
  }

  /** Every resident is active and one the resident form would store unchanged. */
  predicate AllNormalized(rows: seq<Resident>)
  {
    forall k :: 0 <= k < |rows| ==> IsStored(rows[k])
  }

  /** Every row comes from a line of the range. */
  lemma {:induction false} RowsSound(lines: seq<string>, start: nat, end: nat, now: nat, row: (string, nat) -> Option<Resident>)
    requires start <= end <= |lines|
    ensures FromLines(RowsBetween(lines, start, end, now, row), lines, start, end, now, row)
    decreases end
  {
    if start < end {
      RowsSound(lines, start, end - 1, now, row);
      var prev := RowsBetween(lines, start, end - 1, now, row);
      var rows := RowsBetween(lines, start, end, now, row);
      forall k | 0 <= k < |rows|
        ensures ReadBetween(lines, start, end, now, row, rows[k])
      {
        if k < |prev| {
          assert rows[k] == prev[k];
          assert ReadBetween(lines, start, end - 1, now, row, prev[k]);
          var i :| start <= i < end - 1 && row(lines[i], now + i) == Some(prev[k]);
          assert start <= i < end && row(lines[i], now + i) == Some(rows[k]);
        } else {
          assert row(lines[end - 1], now + (end - 1)) == Some(rows[k]);
        }
      }
    }
  }

  /** When each line's row carries its own id, the ids lie in the range's ids and increase. */
  lemma {:induction false} RowsOrdered(lines: seq<string>, start: nat, end: nat, now: nat, row: (string, nat) -> Option<Resident>)
    requires start <= end <= |lines|
    requires forall i :: start <= i < end && row(lines[i], now + i).Some? ==> row(lines[i], now + i).value.id == now + i
    ensures IdsBetween(RowsBetween(lines, start, end, now, row), now + start, now + end)
    ensures IdsIncreasing(RowsBetween(lines, start, end, now, row))
    decreases end
  {
    if start < end {
      RowsOrdered(lines, start, end - 1, now, row);
      var prev := RowsBetween(lines, start, end - 1, now, row);
      var rows := RowsBetween(lines, start, end, now, row);
      assert forall k :: 0 <= k < |prev| ==> rows[k] == prev[k];
      if |rows| > |prev| {
        assert rows[|prev|] == row(lines[end - 1], now + (end - 1)).value;
      }
    }
  }

  /** Every line of the range that reads as a row is imported. */
  lemma {:induction false} RowsComplete(lines: seq<string>, start: nat, end: nat, now: nat, row: (string, nat) -> Option<Resident>, i: nat)
    requires start <= i < end <= |lines|
    requires row(lines[i], now + i).Some?
    ensures row(lines[i], now + i).value in RowsBetween(lines, start, end, now, row)
    decreases end
  {
    if i < end - 1 {
      RowsComplete(lines, start, end - 1, now, row, i);
    }
  }

  /** When every row a line reads as has the property `ok`, so has every row read. */
  lemma {:induction false} RowsKeep(lines: seq<string>, start: nat, end: nat, now: nat, row: (string, nat) -> Option<Resident>,
                                    ok: Resident -> bool)
    requires start <= end <= |lines|
    requires forall i :: start <= i < end && row(lines[i], now + i).Some? ==> ok(row(lines[i], now + i).value)
    ensures forall k :: 0 <= k < |RowsBetween(lines, start, end, now, row)| ==> ok(RowsBetween(lines, start, end, now, row)[k])
    decreases end
  {
    if start < end {
      RowsKeep(lines, start, end - 1, now, row, ok);
      var prev := RowsBetween(lines, start, end - 1, now, row);
      var rows := RowsBetween(lines, start, end, now, row);
      assert forall k :: 0 <= k < |prev| ==> rows[k] == prev[k];
    }
  }

  /** Every line of an upload reads as an active resident the resident form would store unchanged, or as nothing. */
  lemma LinesNormalized(lines: seq<string>, start: nat, end: nat, now: nat)
    requires start <= end <= |lines|
    ensures forall i :: start <= i < end && RowResident(lines[i], now + i).Some? ==> IsStored(RowResident(lines[i], now + i).value)
  {
    forall i | start <= i < end && RowResident(lines[i], now + i).Some?
      ensures IsStored(RowResident(lines[i], now + i).value)
    {
      RowIsNormalized(lines[i], now + i);
    }
  }

  /** Every row an upload reads is active and one the resident form would store unchanged. */
  lemma RowsStored(lines: seq<string>, start: nat, end: nat, now: nat)
    requires start <= end <= |lines|
    ensures AllNormalized(RowsBetween(lines, start, end, now, RowResident))
  {
    LinesNormalized(lines, start, end, now);
    RowsKeep(lines, start, end, now, RowResident, IsStored);
  }

  /** Every resident an upload adds is read from one of its data lines. */
  lemma ImportedFromLines(text: string, now: nat)
    ensures FromLines(ImportedResidents(text, now), CsvLines(text), StartIndex(CsvLines(text)), |CsvLines(text)|, now, RowResident)
  {
    var lines := CsvLines(text);
    RowsSound(lines, StartIndex(lines), |lines|, now, RowResident);
  }

  /** The residents an upload adds have the ids of their data lines, in increasing order. */
  lemma ImportedIds(text: string, now: nat)
    ensures IdsBetween(ImportedResidents(text, now), now + StartIndex(CsvLines(text)), now + |CsvLines(text)|)
    ensures IdsIncreasing(ImportedResidents(text, now))
  {
    var lines := CsvLines(text);
    RowsOrdered(lines, StartIndex(lines), |lines|, now, RowResident);
  }

  /** The residents an upload adds are active, and stored as the resident form would store them. */
  lemma ImportedNormalized(text: string, now: nat)
    ensures AllNormalized(ImportedResidents(text, now))
  {
    var lines := CsvLines(text);
    RowsStored(lines, StartIndex(lines), |lines|, now);
  }

  /**
   * The residents an upload adds, once the crash on a text of blank lines is
   * corrected: every acceptable non-blank line after an optional header.
   */
  function ImportedResidents(text: string, now: nat): seq<Resident>
  {
    var lines := CsvLines(text);
    RowsBetween(lines, StartIndex(lines), |lines|, now, RowResident)
  }

  /** What an upload does as the handler is written. */
  datatype UploadOutcome = NothingRead | Crashed | Imported(rows: seq<Resident>)

  /** The handler as written: an empty text is ignored, and `lines[0]` is read before checking that a line exists. */
  function UploadAsWritten(text: string, now: nat): (o: UploadOutcome)
    ensures o.Imported? ==> o.rows == ImportedResidents(text, now)
  {
    if text == "" then NothingRead
    else if CsvLines(text) == [] then Crashed
    else Imported(ImportedResidents(text, now))
  }

  /** The handler crashes exactly on a non-empty text all of whose lines are blank. */
  lemma CrashIffBlank(text: string, now: nat)
    ensures UploadAsWritten(text, now) == Crashed
            <==> text != "" && forall l :: l in Split(NormalizeNewlines(text), '\n') ==> Trim(l) == ""
  {
    var all := Split(NormalizeNewlines(text), '\n');
    if CsvLines(text) != [] {
      assert CsvLines(text)[0] in all;
    }
    if text != "" && CsvLines(text) == [] {
      forall l | l in all
        ensures Trim(l) == ""
      {
        var k :| 0 <= k < |all| && all[k] == l;
      }
    }
  }

  /** A single line break is such a text: the handler as written crashes on it. */
  lemma BlankLineCrashes(now: nat)
    ensures UploadAsWritten("\n", now) == Crashed
  {
    SplitJoin(["", ""], '\n');
    assert Join(["", ""], "\n") == "\n";
    CrashIffBlank("\n", now);
  }

  /** The corrected upload adds nothing for such a text, and agrees with the handler everywhere else. */
  lemma UploadCorrected(text: string, now: nat)
    ensures CsvLines(text) == [] ==> ImportedResidents(text, now) == []
    ensures UploadAsWritten(text, now) != Crashed ==>
              ImportedResidents(text, now) == (if text == "" then [] else UploadAsWritten(text, now).rows)
  {
    if text == "" {
      SplitNoSeparator(NormalizeNewlines(text), '\n');
      assert Split(NormalizeNewlines(text), '\n') == [""];
      assert CsvLines(text) == [];
    }
  }

  /** A first line that is a header never becomes a resident: no row has its id. */
  lemma HeaderSkipped(text: string, now: nat)
    requires CsvLines(text) != [] && IsHeader(CsvLines(text)[0])
    ensures forall k :: 0 <= k < |ImportedResidents(text, now)| ==> ImportedResidents(text, now)[k].id != now
  {
    ImportedIds(text, now);
  }

  /** A first line that is not a header is imported like any other data line. */
  lemma FirstLineRead(text: string, now: nat)
    requires CsvLines(text) != [] && !IsHeader(CsvLines(text)[0]) && RowResident(CsvLines(text)[0], now).Some?
    ensures RowResident(CsvLines(text)[0], now).value in ImportedResidents(text, now)
  {
    LineRead(text, now, 0);
    assert now + 0 == now;
  }

  /** Every acceptable data line of an upload is imported. */
  lemma LineRead(text: string, now: nat, i: nat)
    requires StartIndex(CsvLines(text)) <= i < |CsvLines(text)| && RowResident(CsvLines(text)[i], now + i).Some?
    ensures RowResident(CsvLines(text)[i], now + i).value in ImportedResidents(text, now)
  {
    var lines := CsvLines(text);
    RowsComplete(lines, StartIndex(lines), |lines|, now, RowResident, i);
  }

  /**
   * `handleCSVUpload`'s loop: the rows read from the lines from `start` on, by
   * any reader of one line (the upload reads with `RowResident`).
   */
  method ReadRows(lines: seq<string>, start: nat, now: nat, row: (string, nat) -> Option<Resident>) returns (rows: seq<Resident>)
    requires start <= |lines|
    ensures rows == RowsBetween(lines, start, |lines|, now, row)
  {
    rows := [];
    var i := start;
    while i < |lines|
      invariant start <= i <= |lines|
      invariant rows == RowsBetween(lines, start, i, now, row)
    {
      match row(lines[i], now + i) {
        case Some(r) => rows := rows + [r];
        case None =>
      }
      i := i + 1;
    }
  }

  /** The corrected upload: the rows read from the non-blank lines after an optional header. */
  method ImportCsv(text: string, now: nat) returns (rows: seq<Resident>)
    ensures rows == ImportedResidents(text, now)
  {
    var lines := CsvLines(text);
    rows := ReadRows(lines, StartIndex(lines), now, RowResident);
  }
}
