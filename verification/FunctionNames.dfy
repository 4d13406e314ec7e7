/** Function names made fit for the model, and how to get the user's names back. */
module FunctionNames {
  import opened Wrappers

  // ---- numbered candidates ----

  function Digit(d: nat): char
    requires d < 10
  {
    "0123456789"[d]
  }

  function Decimal(n: nat): (s: string)
    ensures s != ""
  {
    if n < 10 then [Digit(n)] else Decimal(n / 10) + [Digit(n % 10)]
  }

  lemma {:induction false} DecimalInjective(a: nat, b: nat)
    requires Decimal(a) == Decimal(b)
    ensures a == b
  {
    var x, y := Decimal(a), Decimal(b);
    assert x[|x| - 1] == Digit(a % 10) && y[|y| - 1] == Digit(b % 10);
    if a >= 10 && b >= 10 {
      assert x[..|x| - 1] == Decimal(a / 10) && y[..|y| - 1] == Decimal(b / 10);
      DecimalInjective(a / 10, b / 10);
    }
  }

  /** The first candidate is the name itself, then name_2, name_3 and so on. */
  function Candidate(name: string, k: nat): string {
    if k <= 1 then name else name + "_" + Decimal(k)
  }

  lemma {:induction false} CandidatesDiffer(name: string, j: nat, k: nat)
    requires 1 <= j < k
    ensures Candidate(name, j) != Candidate(name, k)
  {
    if j > 1 && Candidate(name, j) == Candidate(name, k) {
      assert Candidate(name, j)[|name| + 1..] == Decimal(j) && Candidate(name, k)[|name| + 1..] == Decimal(k);
      DecimalInjective(j, k);
    }
  }

  /** Candidates 1, ..., k-1. */
  ghost function Before(name: string, k: nat): set<string> {
    if k <= 1 then {} else Before(name, k - 1) + {Candidate(name, k - 1)}
  }

  lemma {:induction false} BeforeCount(name: string, k: nat)
    ensures |Before(name, k)| == (if k <= 1 then 0 else k - 1)
    ensures forall x :: x in Before(name, k) ==> exists j :: 1 <= j < k && x == Candidate(name, j)
  {
    if k > 1 {
      BeforeCount(name, k - 1);
      if Candidate(name, k - 1) in Before(name, k - 1) {
        var j :| 1 <= j < k - 1 && Candidate(name, k - 1) == Candidate(name, j);
        CandidatesDiffer(name, j, k - 1);
      }
      assert Candidate(name, k - 1) == Candidate(name, k - 1);
    }
  }

  /** If all candidates before the k-th are taken, there are at least that many names. */
  lemma {:induction false} TakenBound(name: string, k: nat, taken: set<string>)
    requires 1 <= k && Before(name, k) <= taken
    ensures k - 1 <= |taken|
  {
    BeforeCount(name, k);
    SubsetCard(Before(name, k), taken);
  }

  /** The name is the first candidate that is not taken. */
  ghost predicate FirstFree(name: string, taken: set<string>, r: string) {
    exists k :: 1 <= k && r == Candidate(name, k) && r !in taken && Before(name, k) <= taken
  }

  // ---- valid characters ----

  /** Which characters are letters and digits. */
  datatype Classes = Classes(letter: char -> bool, digit: char -> bool)

  function Mapped(c: Classes, ch: char): string {
    if ch == ' ' || ch == '-' || ch == '.' then "_"
    else if c.letter(ch) || c.digit(ch) || ch == '_' || ch == '$' then [ch]
    else ""
  }

  function MapAll(c: Classes, name: string): string {
    if name == "" then "" else Mapped(c, name[0]) + MapAll(c, name[1..])
  }

  /** What the test for a leading digit sees is the first byte of the candidate, and no byte but those
      of the ASCII digits is a digit. */
  predicate AsciiDigit(ch: char) { '0' <= ch <= '9' }

  function ToValidChars(c: Classes, name: string): string {
    var candidate := MapAll(c, name);
    if candidate == "" then "unnamed"
    else if AsciiDigit(candidate[0]) then "_" + candidate
    else candidate
  }

  predicate ValidChar(c: Classes, ch: char) { c.letter(ch) || c.digit(ch) || ch == '_' || ch == '$' }

  /** The first character that is kept is a digit outside ASCII. */
  predicate LeadsWithForeignDigit(c: Classes, name: string) {
    name != ""
    && if Mapped(c, name[0]) == "" then LeadsWithForeignDigit(c, name[1..])
       else c.digit(Mapped(c, name[0])[0]) && !AsciiDigit(name[0])
  }

  /** The result consists of valid characters, and it is an identifier, with no digit in front,
      exactly when the first character kept of the name is not a digit outside ASCII. */
  lemma {:induction false} ValidName(c: Classes, name: string)
    requires forall ch :: ch in "unnamed" ==> c.letter(ch)
    requires !c.digit('u') && !c.digit('_')
    ensures var r := ToValidChars(c, name);
            && r != "" && (forall i :: 0 <= i < |r| ==> ValidChar(c, r[i]))
            && (!c.digit(r[0]) <==> !LeadsWithForeignDigit(c, name))
  {
    MapValid(c, name);
    FirstKept(c, name);
  }

  lemma {:induction false} FirstKept(c: Classes, name: string)
    requires !c.digit('_')
    ensures LeadsWithForeignDigit(c, name)
            <==> MapAll(c, name) != "" && c.digit(MapAll(c, name)[0]) && !AsciiDigit(MapAll(c, name)[0])
  {
    if name != "" { FirstKept(c, name[1..]); }
  }

  /** A name with such a digit in front keeps it: the Arabic digit three followed by a letter. */
  lemma {:induction false} ForeignDigitStays(c: Classes)
    requires c.digit('\U{0663}') && c.letter('a')
    ensures ToValidChars(c, "\U{0663}a") == "\U{0663}a" && c.digit(ToValidChars(c, "\U{0663}a")[0])
  {
    var name := "\U{0663}a";
    assert name[1..] == "a" && "a"[1..] == "";
    assert MapAll(c, "a") == Mapped(c, 'a') + MapAll(c, "");
  }

  /** Spaces, dashes and dots have a place in the result, and so has every valid character. */
  predicate HasPlace(c: Classes, ch: char) { ch == ' ' || ch == '-' || ch == '.' || ValidChar(c, ch) }

  lemma {:induction false} MapAppend(c: Classes, a: string, b: string)
    ensures MapAll(c, a + b) == MapAll(c, a) + MapAll(c, b)
    decreases |a|
  {
    if a == "" {
      assert a + b == b;
    } else {
      assert (a + b)[0] == a[0] && (a + b)[1..] == a[1..] + b;
      MapAppend(c, a[1..], b);
      assert Mapped(c, a[0]) + (MapAll(c, a[1..]) + MapAll(c, b)) == Mapped(c, a[0]) + MapAll(c, a[1..]) + MapAll(c, b);
    }
  }

  lemma {:induction false} MapOne(c: Classes, ch: char)
    ensures MapAll(c, [ch]) == Mapped(c, ch)
  {
    assert MapAll(c, [ch][1..]) == "";
  }

  /** A character without a place might as well not be there. */
  lemma {:induction false} DroppedAnywhere(c: Classes, a: string, ch: char, b: string)
    requires !HasPlace(c, ch)
    ensures MapAll(c, a + [ch] + b) == MapAll(c, a + b)
  {
    MapAppend(c, a + [ch], b);
    MapAppend(c, a, [ch]);
    MapAppend(c, a, b);
    MapOne(c, ch);
  }

  lemma {:induction false} MapInPlace(c: Classes, name: string)
    requires forall ch :: ch in name ==> HasPlace(c, ch)
    ensures |MapAll(c, name)| == |name|
    ensures forall i :: 0 <= i < |name| ==>
              MapAll(c, name)[i] == if name[i] == ' ' || name[i] == '-' || name[i] == '.' then '_' else name[i]
  {
    if name != "" {
      assert name[0] in name;
      assert forall ch :: ch in name[1..] ==> ch in name;
      MapInPlace(c, name[1..]);
      assert |Mapped(c, name[0])| == 1;
    }
  }

  /** When all characters have a place, each one stays where it is, spaces, dashes and dots as underscores;
      before a digit one more underscore is put. */
  lemma {:induction false} KeptInPlace(c: Classes, name: string)
    requires name != "" && forall ch :: ch in name ==> HasPlace(c, ch)
    ensures var r, shift := ToValidChars(c, name), if AsciiDigit(name[0]) then 1 else 0;
            && |r| == |name| + shift && (shift == 1 ==> r[0] == '_')
            && forall i :: 0 <= i < |name| ==>
                 r[shift + i] == if name[i] == ' ' || name[i] == '-' || name[i] == '.' then '_' else name[i]
  {
    MapInPlace(c, name);
  }

  /** A name without such characters is replaced, and without the others it is the same name. */
  lemma {:induction false} DroppedDoNotMatter(c: Classes, a: string, ch: char, b: string)
    requires !HasPlace(c, ch)
    ensures ToValidChars(c, a + [ch] + b) == ToValidChars(c, a + b)
    ensures ToValidChars(c, "") == "unnamed"
  {
    DroppedAnywhere(c, a, ch, b);
  }

  lemma {:induction false} MapValid(c: Classes, name: string)
    ensures forall i :: 0 <= i < |MapAll(c, name)| ==> ValidChar(c, MapAll(c, name)[i])
  {
    if name != "" { MapValid(c, name[1..]); }
  }

  // ---- the map ----

  predicate BuiltIn(name: string) {
    name == "browser.open" || name == "browser.search" || name == "browser.find" || name == "python"
  }

  class FunctionNameMap {
    const classes: Classes
    var userToHarmony: map<string, string>
    var harmonyToUser: map<string, string>

    constructor (classes: Classes)
      ensures this.classes == classes && userToHarmony == map[] && harmonyToUser == map[]
    {
      this.classes, userToHarmony, harmonyToUser := classes, map[], map[];
    }

    /** The first candidate not in use; the search always ends. */
    method DeriveName(name: string) returns (candidate: string)
      ensures FirstFree(ToValidChars(classes, name), harmonyToUser.Keys, candidate)
    {
      var original := ToValidChars(classes, name);
      candidate := original;
      var count := 2;
      while candidate in harmonyToUser
        invariant count >= 2 && candidate == Candidate(original, count - 1)
            && Before(original, count - 1) <= harmonyToUser.Keys
        decreases |harmonyToUser| + 2 - count
      {
        TakenBound(original, count, harmonyToUser.Keys);
        candidate := original + "_" + Decimal(count);
        count := count + 1;
      }
    }

    method ConvertAndAdd(name: string) returns (r: string)
      modifies this
      ensures NameStep(classes, old(harmonyToUser), name, r, harmonyToUser)
      ensures userToHarmony == old(userToHarmony)[name := r]
    {
      r := DeriveName(name);
      if name == "browser.open" || name == "browser.search" || name == "browser.find" || name == "python" {
        r := name;
      }
      userToHarmony := userToHarmony[name := r];
      harmonyToUser := harmonyToUser[r := name];
    }

    method OriginalFromConverted(r: string) returns (name: string)
      ensures name == Original(harmonyToUser, r)
    {
      name := if r in harmonyToUser then harmonyToUser[r] else r;
    }
  }

  function Original(m: map<string, string>, r: string): string { if r in m then m[r] else r }

  /** One conversion: a built-in name stays, any other name becomes the first free candidate. */
  ghost predicate NameStep(c: Classes, m: map<string, string>, name: string, r: string, m': map<string, string>) {
    (if BuiltIn(name) then r == name else FirstFree(ToValidChars(c, name), m.Keys, r)) && m' == m[r := name]
  }

  /** A built-in name takes over an entry that belongs to another name. */
  predicate Overwrites(m: map<string, string>, name: string) {
    BuiltIn(name) && name in m && m[name] != name
  }

  // ---- every run of conversions ----

  datatype Call = Call(name: string, r: string)

  ghost predicate Run(c: Classes, calls: seq<Call>, ms: seq<map<string, string>>) {
    && |ms| == |calls| + 1 && ms[0] == map[]
    && forall k :: 0 <= k < |calls| ==> NameStep(c, ms[k], calls[k].name, calls[k].r, ms[k + 1])
  }

  /** Until something is overwritten, every name ever returned leads back to its user's name. */
  lemma {:induction false} InvertsUpTo(c: Classes, calls: seq<Call>, ms: seq<map<string, string>>, k: nat)
    requires Run(c, calls, ms) && k <= |calls| && forall j :: 0 <= j < k ==> !Overwrites(ms[j], calls[j].name)
    ensures forall j :: 0 <= j < k ==> calls[j].r in ms[k] && ms[k][calls[j].r] == calls[j].name
  {
    if k > 0 {
      InvertsUpTo(c, calls, ms, k - 1);
      assert NameStep(c, ms[k - 1], calls[k - 1].name, calls[k - 1].r, ms[k]);
    }
  }

  /** Entries come from earlier calls. */
  lemma {:induction false} EntriesReturned(c: Classes, calls: seq<Call>, ms: seq<map<string, string>>, k: nat,
                                           r: string)
    requires Run(c, calls, ms) && k <= |calls| && r in ms[k]
    ensures exists j :: 0 <= j < k && calls[j] == Call(ms[k][r], r)
  {
    assert k > 0;
    assert NameStep(c, ms[k - 1], calls[k - 1].name, calls[k - 1].r, ms[k]);
    if r == calls[k - 1].r {
      assert calls[k - 1] == Call(ms[k][r], r);
    } else {
      EntriesReturned(c, calls, ms, k - 1, r);
    }
  }

  /** An entry that a built-in name has for itself stays. */
  lemma {:induction false} BuiltInStays(c: Classes, calls: seq<Call>, ms: seq<map<string, string>>, k: nat, n: nat,
                                        name: string)
    requires Run(c, calls, ms) && k <= n <= |calls| && BuiltIn(name) && name in ms[k] && ms[k][name] == name
    ensures name in ms[n] && ms[n][name] == name
    decreases n
  {
    if k < n {
      BuiltInStays(c, calls, ms, k, n - 1, name);
      assert NameStep(c, ms[n - 1], calls[n - 1].name, calls[n - 1].r, ms[n]);
    }
  }

  /** The inverse finds the user's name for every name returned in a run exactly when no built-in
      name took over another name's entry. */
  lemma {:induction false} InvertsIff(c: Classes, calls: seq<Call>, ms: seq<map<string, string>>)
    requires Run(c, calls, ms)
    ensures (forall j :: 0 <= j < |calls| ==> Original(ms[|calls|], calls[j].r) == calls[j].name)
            <==> (forall k :: 0 <= k < |calls| ==> !Overwrites(ms[k], calls[k].name))
  {
    var n := |calls|;
    if k :| 0 <= k < n && Overwrites(ms[k], calls[k].name) {
      var name := calls[k].name;
      EntriesReturned(c, calls, ms, k, name);
      var j :| 0 <= j < k && calls[j] == Call(ms[k][name], name);
      assert NameStep(c, ms[k], name, calls[k].r, ms[k + 1]);
      BuiltInStays(c, calls, ms, k + 1, n, name);
      assert Original(ms[n], calls[j].r) != calls[j].name;
    } else {
      InvertsUpTo(c, calls, ms, n);
    }
  }

  /** Such a run: a user's name that becomes python, then the built-in python. */
  lemma {:induction false} OverwriteHappens(c: Classes)
    requires forall ch :: ch in "python" ==> c.letter(ch) && !c.digit(ch)
    requires !c.letter('!') && !c.digit('!')
    ensures var calls, ms := [Call("python!", "python"), Call("python", "python")],
                             [map[], map["python" := "python!"], map["python" := "python"]];
            Run(c, calls, ms) && Original(ms[2], "python") != "python!"
  {
    var calls, ms := [Call("python!", "python"), Call("python", "python")],
                     [map[], map["python" := "python!"], map["python" := "python"]];
    PythonName(c);
    assert "python" == Candidate(ToValidChars(c, "python!"), 1) && Before(ToValidChars(c, "python!"), 1) == {};
    assert NameStep(c, ms[0], calls[0].name, calls[0].r, ms[1]);
    assert NameStep(c, ms[1], calls[1].name, calls[1].r, ms[2]);
  }

  lemma {:induction false} PythonName(c: Classes)
    requires forall ch :: ch in "python" ==> c.letter(ch) && !c.digit(ch)
    requires !c.letter('!') && !c.digit('!')
    ensures ToValidChars(c, "python!") == "python"
  {
    var s := "python!";
    assert forall i :: 0 <= i < 6 ==> "python"[i] in "python";
    MapPrefix(c, s, 6);
    assert s[..6] == "python" && s[6..] == "!";
    assert MapAll(c, "!") == Mapped(c, '!') + MapAll(c, "");
  }

  lemma {:induction false} MapPrefix(c: Classes, s: string, n: nat)
    requires n <= |s| && forall i :: 0 <= i < n ==> c.letter(s[i]) && s[i] != ' ' && s[i] != '-' && s[i] != '.'
    ensures MapAll(c, s) == s[..n] + MapAll(c, s[n..])
  {
    if n > 0 {
      MapPrefix(c, s[1..], n - 1);
      assert s[1..][..n - 1] == s[1..n] && s[1..][n - 1..] == s[n..];
      assert [s[0]] + s[1..n] == s[..n];
    } else {
      assert s[0..] == s;
    }
  }
}
