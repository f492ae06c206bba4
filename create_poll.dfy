/**
  The create-poll form (`src/pages/CreatePoll.tsx`): the option editor, the
  validator and the submit sequence. The editor as written reuses ids (see
  `EditsAsWrittenLeaveOneOption`), and the form class follows it; the
  corrected `AddedFresh`, whose invariant `EditorInvariant` is proved for
  every sequence of edits, is what the guard in `removeOption` intends.
*/
module CreatePoll {
  import opened Wrappers

  const MaxOptions: nat := 6
  const MinOptions: nat := 2
  const QuestionRequired: string := "Question is required"
  const TooFewOptions: string := "At least 2 options are required"
  const OptionsNotUnique: string := "Options must be unique"
  const CreatedMessage: string := "Poll created successfully!"
  const CreateFallbackMessage: string := "Failed to create poll."

  /** One row of the option editor. */
  datatype DraftOption = DraftOption(id: int, text: string)

  /** What the form hands to the create call. */
  datatype CreatePayload = CreatePayload(question: string, options: seq<string>, idToken: Option<string>)

  /** The editor starts with two empty options, ids 1 and 2. */
  function InitialOptions(): (options: seq<DraftOption>)
    ensures |options| == MinOptions
    ensures options[0] == DraftOption(1, "") && options[1] == DraftOption(2, "")
  {
    [DraftOption(1, ""), DraftOption(2, "")]
  }

  // ---------------------------------------------------------------- editor

  /** `options.filter((option) => option.id !== id)` */
  function WithoutId(options: seq<DraftOption>, id: int): (r: seq<DraftOption>)
    ensures |r| == |options| - CountId(options, id)
    ensures forall o :: o in r <==> o in options && o.id != id
  {
    if options == [] then []
    else (if options[0].id == id then [] else [options[0]]) + WithoutId(options[1..], id)
  }

  /** How many options carry the id `id`. */
  function CountId(options: seq<DraftOption>, id: int): (n: nat)
    ensures n <= |options|
  {
    if options == [] then 0 else (if options[0].id == id then 1 else 0) + CountId(options[1..], id)
  }

  /**
    `WithoutId` is the order-keeping filter: it keeps a single option exactly
    when its id differs, and distributes over concatenation.
  */
  lemma {:induction false} WithoutIdIsFilter(a: seq<DraftOption>, b: seq<DraftOption>, id: int)
    ensures WithoutId([], id) == []
    ensures forall o :: WithoutId([o], id) == if o.id == id then [] else [o]
    ensures WithoutId(a + b, id) == WithoutId(a, id) + WithoutId(b, id)
  {
    forall o ensures WithoutId([o], id) == if o.id == id then [] else [o] {
      WithoutIdOne(o, id);
    }
    WithoutIdAppend(a, b, id);
  }

  lemma WithoutIdOne(o: DraftOption, id: int)
    ensures WithoutId([o], id) == if o.id == id then [] else [o]
  {
    assert [o][1..] == [];
  }

  lemma {:induction false} WithoutIdAppend(a: seq<DraftOption>, b: seq<DraftOption>, id: int)
    ensures WithoutId(a + b, id) == WithoutId(a, id) + WithoutId(b, id)
  {
    if a == [] {
      assert a + b == b;
    } else {
      var ab := a + b;
      assert ab[0] == a[0];
      assert ab[1..] == a[1..] + b;
      WithoutIdAppend(a[1..], b, id);
    }
  }

  /** `addOption` as written: below six options, appends an empty option whose id is the current length plus one. */
  function Added(options: seq<DraftOption>): (r: seq<DraftOption>)
    ensures |options| < MaxOptions ==> r == options + [DraftOption(|options| + 1, "")]
    ensures |options| >= MaxOptions ==> r == options
    ensures |options| <= MaxOptions ==> |r| <= MaxOptions
  {
    if |options| < MaxOptions then options + [DraftOption(|options| + 1, "")] else options
  }

  /** The largest id in use, 0 when there is none. */
  function MaxId(options: seq<DraftOption>): (m: int)
    ensures forall o :: o in options ==> o.id <= m
    ensures options == [] ==> m == 0
  {
    if options == [] then 0
    else
      var rest := MaxId(options[1..]);
      assert forall o :: o in options ==> o == options[0] || o in options[1..];
      if options[0].id > rest then options[0].id else rest
  }

  /** `addOption` corrected: the new option's id is one more than every id in use. */
  function AddedFresh(options: seq<DraftOption>): (r: seq<DraftOption>)
    ensures |options| < MaxOptions ==> |r| == |options| + 1 && r[..|options|] == options && r[|options|].text == ""
    ensures |options| < MaxOptions ==> forall o :: o in options ==> o.id != r[|options|].id
    ensures |options| >= MaxOptions ==> r == options
  {
    if |options| < MaxOptions then options + [DraftOption(MaxId(options) + 1, "")] else options
  }

  /** `removeOption`: above two options, drops every option with that id, keeping the others in order. */
  function Removed(options: seq<DraftOption>, id: int): (r: seq<DraftOption>)
    ensures |options| <= MinOptions ==> r == options
    ensures |options| > MinOptions ==> r == WithoutId(options, id)
  {
    if |options| > MinOptions then WithoutId(options, id) else options
  }

  /** `updateOption`: every option with that id gets the new text; ids and order stay. */
  function Updated(options: seq<DraftOption>, id: int, text: string): (r: seq<DraftOption>)
    ensures |r| == |options|
    ensures forall i :: 0 <= i < |r| ==> r[i].id == options[i].id
    ensures forall i :: 0 <= i < |r| ==> r[i].text == (if options[i].id == id then text else options[i].text)
  {
    seq(|options|, i requires 0 <= i < |options| =>
      if options[i].id == id then options[i].(text := text) else options[i])
  }

  /** A user action on the editor. */
  datatype Edit = Add | Remove(id: int) | Update(id: int, text: string)

  /** The editor after a sequence of edits, with `addOption` as written. */
  function ApplyAsWritten(options: seq<DraftOption>, edits: seq<Edit>): (r: seq<DraftOption>)
    decreases |edits|
  {
    if edits == [] then options
    else ApplyAsWritten(ApplyEditAsWritten(options, edits[0]), edits[1..])
  }

  function ApplyEditAsWritten(options: seq<DraftOption>, edit: Edit): (r: seq<DraftOption>)
  {
    match edit
    case Add => Added(options)
    case Remove(id) => Removed(options, id)
    case Update(id, text) => Updated(options, id, text)
  }

  /** The editor after a sequence of edits, with the corrected `AddedFresh`. */
  function ApplyCorrected(options: seq<DraftOption>, edits: seq<Edit>): (r: seq<DraftOption>)
    decreases |edits|
  {
    if edits == [] then options
    else ApplyCorrected(ApplyEdit(options, edits[0]), edits[1..])
  }

  function ApplyEdit(options: seq<DraftOption>, edit: Edit): (r: seq<DraftOption>)
  {
    match edit
    case Add => AddedFresh(options)
    case Remove(id) => Removed(options, id)
    case Update(id, text) => Updated(options, id, text)
  }

  lemma RemoveFirstOfThree()
    ensures ApplyEditAsWritten([DraftOption(1, ""), DraftOption(2, ""), DraftOption(3, "")], Remove(1)) == [DraftOption(2, ""), DraftOption(3, "")]
    ensures Removed([DraftOption(1, ""), DraftOption(2, ""), DraftOption(3, "")], 1) == [DraftOption(2, ""), DraftOption(3, "")]
  {
    var s1 := [DraftOption(1, ""), DraftOption(2, ""), DraftOption(3, "")];
    assert WithoutId(s1[1..][1..][1..], 1) == [];
    assert WithoutId(s1[1..][1..], 1) == [s1[2]];
    assert WithoutId(s1[1..], 1) == [s1[1], s1[2]];
  }

  /** Both options carrying the reused id 3 go at once. */
  lemma RemoveReusedId()
    ensures ApplyEditAsWritten([DraftOption(2, ""), DraftOption(3, ""), DraftOption(3, "")], Remove(3)) == [DraftOption(2, "")]
    ensures Removed([DraftOption(2, ""), DraftOption(3, ""), DraftOption(3, "")], 3) == [DraftOption(2, "")]
  {
    var s3 := [DraftOption(2, ""), DraftOption(3, ""), DraftOption(3, "")];
    assert WithoutId(s3[1..][1..][1..], 3) == [];
    assert WithoutId(s3[1..][1..], 3) == [];
    assert WithoutId(s3[1..], 3) == [];
  }

  /**
    As written, adding after a removal can reuse an id that is still in use;
    removing that id then drops two options at once, leaving one option,
    below the minimum of two that `removeOption` guards.
  */
  lemma EditsAsWrittenLeaveOneOption()
    ensures ApplyAsWritten(InitialOptions(), [Add, Remove(1), Add]) == [DraftOption(2, ""), DraftOption(3, ""), DraftOption(3, "")]
    ensures |ApplyAsWritten(InitialOptions(), [Add, Remove(1), Add, Remove(3)])| == 1
  {
    var s1 := [DraftOption(1, ""), DraftOption(2, ""), DraftOption(3, "")];
    var s2 := [DraftOption(2, ""), DraftOption(3, "")];
    var s3 := [DraftOption(2, ""), DraftOption(3, ""), DraftOption(3, "")];
    var s4 := [DraftOption(2, "")];
    FirstAddAsWritten();
    RemoveFirstOfThree();
    SecondAddAsWritten();
    RemoveReusedId();
    AsWrittenStep(s3, Add, []);
    AsWrittenStep(s2, Remove(1), [Add]);
    AsWrittenStep(InitialOptions(), Add, [Remove(1), Add]);
    AsWrittenStep(s3, Remove(3), []);
    AsWrittenStep(s2, Add, [Remove(3)]);
    AsWrittenStep(s1, Remove(1), [Add, Remove(3)]);
    AsWrittenStep(InitialOptions(), Add, [Remove(1), Add, Remove(3)]);
  }

  lemma FirstAddAsWritten()
    ensures ApplyEditAsWritten(InitialOptions(), Add) == [DraftOption(1, ""), DraftOption(2, ""), DraftOption(3, "")]
  {
  }

  /** The second add reuses id 3, which is still in use. */
  lemma SecondAddAsWritten()
    ensures ApplyEditAsWritten([DraftOption(2, ""), DraftOption(3, "")], Add) == [DraftOption(2, ""), DraftOption(3, ""), DraftOption(3, "")]
  {
  }

  lemma AsWrittenStep(options: seq<DraftOption>, edit: Edit, rest: seq<Edit>)
    ensures ApplyAsWritten(options, [edit] + rest) == ApplyAsWritten(ApplyEditAsWritten(options, edit), rest)
  {
    assert ([edit] + rest)[1..] == rest;
  }

  /** No two options share an id. */
  predicate DistinctIds(options: seq<DraftOption>)
  {
    forall i, j :: 0 <= i < j < |options| ==> options[i].id != options[j].id
  }

  /** What the editor promises: between two and six options, with distinct ids. */
  predicate EditorInvariant(options: seq<DraftOption>)
  {
    MinOptions <= |options| <= MaxOptions && DistinctIds(options)
  }

  /** The options after the first one keep distinct ids, none equal to the first's. */
  lemma TailDistinct(options: seq<DraftOption>)
    requires options != [] && DistinctIds(options)
    ensures DistinctIds(options[1..])
    ensures forall o :: o in options[1..] ==> o.id != options[0].id
  {
    var rest := options[1..];
    forall i, j | 0 <= i < j < |rest| ensures rest[i].id != rest[j].id {
      assert rest[i] == options[i + 1] && rest[j] == options[j + 1];
    }
    forall o | o in rest ensures o.id != options[0].id {
      var k :| 0 <= k < |rest| && rest[k] == o;
      assert options[k + 1] == o;
    }
  }

  /** Putting an option with a new id in front keeps ids distinct. */
  lemma ConsDistinct(x: DraftOption, tail: seq<DraftOption>)
    requires DistinctIds(tail)
    requires forall o :: o in tail ==> o.id != x.id
    ensures DistinctIds([x] + tail)
  {
    var r := [x] + tail;
    forall i, j | 0 <= i < j < |r| ensures r[i].id != r[j].id {
      assert r[j] == tail[j - 1];
      if i == 0 {
        assert tail[j - 1] in tail;
      } else {
        assert r[i] == tail[i - 1];
      }
    }
  }

  /** Removing one id from options with distinct ids drops at most that one option and keeps ids distinct. */
  lemma {:induction false} WithoutIdDistinct(options: seq<DraftOption>, id: int)
    requires DistinctIds(options)
    ensures |WithoutId(options, id)| >= |options| - 1
    ensures DistinctIds(WithoutId(options, id))
  {
    if options != [] {
      var rest := options[1..];
      TailDistinct(options);
      WithoutIdDistinct(rest, id);
      var tail := WithoutId(rest, id);
      if options[0].id == id {
        NoMatchKeepsAll(rest, id);
      } else {
        ConsDistinct(options[0], tail);
      }
    }
  }

  lemma {:induction false} NoMatchKeepsAll(options: seq<DraftOption>, id: int)
    requires forall o :: o in options ==> o.id != id
    ensures WithoutId(options, id) == options
  {
    if options != [] {
      assert options[0] in options;
      assert forall o :: o in options[1..] ==> o in options;
      NoMatchKeepsAll(options[1..], id);
      assert options == [options[0]] + options[1..];
    }
  }

  /** As written, no sequence of edits ever takes the editor past six options. */
  lemma {:induction false} AsWrittenEditsStayBounded(options: seq<DraftOption>, edits: seq<Edit>)
    requires |options| <= MaxOptions
    ensures |ApplyAsWritten(options, edits)| <= MaxOptions
    decreases |edits|
  {
    if edits != [] {
      AsWrittenEditsStayBounded(ApplyEditAsWritten(options, edits[0]), edits[1..]);
    }
  }

  /** Each corrected edit keeps the editor invariant. */
  lemma EditKeepsInvariant(options: seq<DraftOption>, edit: Edit)
    requires EditorInvariant(options)
    ensures EditorInvariant(ApplyEdit(options, edit))
  {
    match edit
    case Add =>
      var r := AddedFresh(options);
      if |options| < MaxOptions {
        forall i, j | 0 <= i < j < |r| ensures r[i].id != r[j].id {
          if j == |options| {
            assert r[i] == options[i];
            assert options[i] in options;
          } else {
            assert r[i] == options[i] && r[j] == options[j];
          }
        }
      }
    case Remove(id) =>
      if |options| > MinOptions {
        WithoutIdDistinct(options, id);
      }
    case Update(id, text) =>
  }

  /** From the initial options, any sequence of corrected edits keeps two to six options with distinct ids. */
  lemma {:induction false} CorrectedEditsKeepInvariant(options: seq<DraftOption>, edits: seq<Edit>)
    requires EditorInvariant(options)
    ensures EditorInvariant(ApplyCorrected(options, edits))
    decreases |edits|
  {
    if edits != [] {
      EditKeepsInvariant(options, edits[0]);
      CorrectedEditsKeepInvariant(ApplyEdit(options, edits[0]), edits[1..]);
    }
  }

  lemma InitialOptionsKeepInvariant()
    ensures EditorInvariant(InitialOptions())
    ensures forall edits :: EditorInvariant(ApplyCorrected(InitialOptions(), edits))
  {
    forall edits ensures EditorInvariant(ApplyCorrected(InitialOptions(), edits)) {
      CorrectedEditsKeepInvariant(InitialOptions(), edits);
    }
  }

  // ------------------------------------------------------------ validation

  /** The characters `String.prototype.trim` strips: ECMAScript WhiteSpace and LineTerminator. */
  predicate IsWhitespace(c: char)
  {
    || c == '\t' || c == '\n' || c == '\U{B}' || c == '\U{C}' || c == '\r' || c == ' '
    || c == '\U{A0}' || c == '\U{1680}' || ('\U{2000}' <= c <= '\U{200A}')
    || c == '\U{2028}' || c == '\U{2029}' || c == '\U{202F}' || c == '\U{205F}' || c == '\U{3000}' || c == '\U{FEFF}'
  }

  predicate AllWhitespace(s: string)
  {
    forall i :: 0 <= i < |s| ==> IsWhitespace(s[i])
  }

  /** Strips whitespace from the front. */
  function TrimStart(s: string): (r: string)
    ensures r == "" <==> AllWhitespace(s)
    ensures r != "" ==> !IsWhitespace(r[0])
  {
    if s != "" && IsWhitespace(s[0]) then
      var r := TrimStart(s[1..]);
      assert AllWhitespace(s) <==> AllWhitespace(s[1..]) by {
        assert forall i :: 0 < i < |s| ==> s[i] == s[1..][i - 1];
      }
      r
    else s
  }

  /** Strips whitespace from the back. */
  function TrimEnd(s: string): (r: string)
    ensures r == "" <==> AllWhitespace(s)
    ensures r != "" ==> r[0] == s[0] && !IsWhitespace(r[|r| - 1])
  {
    if s != "" && IsWhitespace(s[|s| - 1]) then
      var r := TrimEnd(s[..|s| - 1]);
      assert AllWhitespace(s) <==> AllWhitespace(s[..|s| - 1]) by {
        assert forall i :: 0 <= i < |s| - 1 ==> s[i] == s[..|s| - 1][i];
      }
      r
    else s
  }

  /** `s.trim()`: what remains after stripping whitespace from both ends. */
  function Trim(s: string): (r: string)
    ensures r == "" <==> AllWhitespace(s)
    ensures r != "" ==> !IsWhitespace(r[0]) && !IsWhitespace(r[|r| - 1])
  {
    var front := TrimStart(s);
    var r := TrimEnd(front);
    assert AllWhitespace(front) <==> front == "" by {
      if front != "" {
        assert !IsWhitespace(front[0]);
      }
    }
    r
  }

  /** `TrimStart` removes a whitespace prefix and nothing else. */
  lemma {:induction false} TrimStartIsSuffix(s: string)
    ensures |TrimStart(s)| <= |s|
    ensures TrimStart(s) == s[|s| - |TrimStart(s)|..]
    ensures AllWhitespace(s[..|s| - |TrimStart(s)|])
  {
    if s != "" && IsWhitespace(s[0]) {
      TrimStartIsSuffix(s[1..]);
      var k := |s[1..]| - |TrimStart(s[1..])|;
      assert s[1..][k..] == s[k + 1..];
      assert forall i :: 0 <= i < k ==> s[..k + 1][i + 1] == s[1..][..k][i];
    }
  }

  /** `TrimEnd` removes a whitespace suffix and nothing else. */
  lemma {:induction false} TrimEndIsPrefix(s: string)
    ensures |TrimEnd(s)| <= |s|
    ensures TrimEnd(s) == s[..|TrimEnd(s)|]
    ensures AllWhitespace(s[|TrimEnd(s)|..])
  {
    if s != "" && IsWhitespace(s[|s| - 1]) {
      var t := s[..|s| - 1];
      TrimEndIsPrefix(t);
      var k := |TrimEnd(t)|;
      assert t[..k] == s[..k];
      assert forall i :: 0 <= i < |t| - k ==> s[k..][i] == t[k..][i];
    }
  }

  /**
    `s.trim()` is a slice of `s`: only whitespace precedes and follows it, and
    the characters in between are kept as they are.
  */
  lemma TrimIsInfix(s: string)
    ensures exists i, j :: 0 <= i <= j <= |s| && Trim(s) == s[i..j] && AllWhitespace(s[..i]) && AllWhitespace(s[j..])
  {
    var front := TrimStart(s);
    TrimStartIsSuffix(s);
    TrimEndIsPrefix(front);
    var i := |s| - |front|;
    var j := i + |TrimEnd(front)|;
    assert Trim(s) == s[i..j];
    assert AllWhitespace(s[j..]) by {
      assert s[j..] == front[|TrimEnd(front)|..];
    }
  }

  /** Trimming twice is trimming once. */
  lemma TrimIdempotent(s: string)
    ensures Trim(Trim(s)) == Trim(s)
  {
    var t := Trim(s);
    if t != "" {
      assert TrimStart(t) == t;
      assert TrimEnd(t) == t;
    }
  }

  /** `toLowerCase` for ASCII letters; every other character is kept. */
  function ToLower(s: string): (r: string)
    ensures |r| == |s|
  {
    seq(|s|, i requires 0 <= i < |s| => if 'A' <= s[i] <= 'Z' then s[i] - 'A' + 'a' else s[i])
  }

  /** No ASCII capital letter survives `ToLower`, and every other character is kept. */
  lemma ToLowerLeavesNoCapital(s: string)
    ensures forall i :: 0 <= i < |s| ==> !('A' <= ToLower(s)[i] <= 'Z')
    ensures forall i :: 0 <= i < |s| && !('A' <= s[i] <= 'Z') ==> ToLower(s)[i] == s[i]
  {
  }

  /** `options.filter((opt) => opt.text.trim())`: the options whose text is not blank, in order. */
  function NonBlank(options: seq<DraftOption>): (r: seq<DraftOption>)
    ensures |r| <= |options|
  {
    if options == [] then []
    else (if Trim(options[0].text) != "" then [options[0]] else []) + NonBlank(options[1..])
  }

  /** The filter keeps exactly the options whose trimmed text is not empty. */
  lemma {:induction false} NonBlankMembers(options: seq<DraftOption>)
    ensures forall o :: o in NonBlank(options) <==> o in options && Trim(o.text) != ""
  {
    if options != [] {
      NonBlankMembers(options[1..]);
      assert forall o :: o in options <==> o == options[0] || o in options[1..];
    }
  }

  /** The texts compared for duplicates: trimmed and lower-cased. */
  function Normalized(options: seq<DraftOption>): (r: seq<string>)
    ensures |r| == |options|
    ensures forall i :: 0 <= i < |r| ==> r[i] == ToLower(Trim(options[i].text))
  {
    seq(|options|, i requires 0 <= i < |options| => ToLower(Trim(options[i].text)))
  }

  /** `new Set(texts)` */
  function Elements(texts: seq<string>): (r: set<string>)
  {
    if texts == [] then {} else {texts[0]} + Elements(texts[1..])
  }

  /** The set holds exactly the texts of the sequence. */
  lemma {:induction false} ElementsMembers(texts: seq<string>)
    ensures forall t :: t in Elements(texts) <==> t in texts
  {
    if texts != [] {
      ElementsMembers(texts[1..]);
      assert forall t :: t in texts <==> t == texts[0] || t in texts[1..];
    }
  }

  /** `texts.length !== new Set(texts).size` */
  predicate HasDuplicates(texts: seq<string>)
  {
    |texts| != |Elements(texts)|
  }

  predicate Distinct(texts: seq<string>)
  {
    forall i, j :: 0 <= i < j < |texts| ==> texts[i] != texts[j]
  }

  /** A text that does not occur later leaves distinctness to the rest. */
  lemma DistinctCons(texts: seq<string>)
    requires texts != [] && texts[0] !in texts[1..]
    ensures Distinct(texts) <==> Distinct(texts[1..])
  {
    var rest := texts[1..];
    if Distinct(rest) {
      forall i, j | 0 <= i < j < |texts| ensures texts[i] != texts[j] {
        assert texts[j] == rest[j - 1];
        if i > 0 {
          assert texts[i] == rest[i - 1];
        } else {
          assert rest[j - 1] in rest;
        }
      }
    }
    if Distinct(texts) {
      forall i, j | 0 <= i < j < |rest| ensures rest[i] != rest[j] {
        assert rest[i] == texts[i + 1] && rest[j] == texts[j + 1];
      }
    }
  }

  /** The set of a sequence is never larger than it, and is as large exactly when no text repeats. */
  lemma {:induction false} ElementsSize(texts: seq<string>)
    ensures |Elements(texts)| <= |texts|
    ensures |Elements(texts)| == |texts| <==> Distinct(texts)
  {
    if texts != [] {
      var x, rest := texts[0], texts[1..];
      ElementsSize(rest);
      ElementsMembers(rest);
      if x in rest {
        assert Elements(texts) == Elements(rest);
        var k :| 0 <= k < |rest| && rest[k] == x;
        assert texts[0] == texts[k + 1];
      } else {
        assert Elements(texts) == {x} + Elements(rest);
        DistinctCons(texts);
      }
    }
  }

  /** The set-size test detects exactly a repeated text. */
  lemma HasDuplicatesIff(texts: seq<string>)
    ensures HasDuplicates(texts) <==> exists i, j :: 0 <= i < j < |texts| && texts[i] == texts[j]
  {
    ElementsSize(texts);
  }

  /** The error dictionary built from the three checks, in the order they run. */
  function ErrorsFor(blankQuestion: bool, tooFew: bool, duplicates: bool): (errors: map<string, string>)
    ensures errors.Keys <= {"question", "options"}
    ensures "question" in errors <==> blankQuestion
    ensures "question" in errors ==> errors["question"] == QuestionRequired
    ensures "options" in errors <==> tooFew || duplicates
    ensures "options" in errors ==> errors["options"] == (if duplicates then OptionsNotUnique else TooFewOptions)
  {
    var withQuestion: map<string, string> := if blankQuestion then map["question" := QuestionRequired] else map[];
    var withCount := if tooFew then withQuestion["options" := TooFewOptions] else withQuestion;
    if duplicates then withCount["options" := OptionsNotUnique] else withCount
  }

  /** The errors `validateForm` records for a question and options. */
  function FormErrors(question: string, options: seq<DraftOption>): (errors: map<string, string>)
  {
    var valid := NonBlank(options);
    ErrorsFor(Trim(question) == "", |valid| < 2, HasDuplicates(Normalized(valid)))
  }

  /**
    What `validateForm` records: a question error exactly when the question
    is all whitespace; an options error exactly when fewer than two options
    are non-blank or two non-blank options are equal after trimming and
    lower-casing, and then the duplicate message wins; no other key.
  */
  lemma FormErrorsRecorded(question: string, options: seq<DraftOption>)
    ensures FormErrors(question, options).Keys <= {"question", "options"}
    ensures "question" in FormErrors(question, options) <==> AllWhitespace(question)
    ensures "question" in FormErrors(question, options) ==> FormErrors(question, options)["question"] == QuestionRequired
    ensures "options" in FormErrors(question, options)
        <==> |NonBlank(options)| < 2 || HasDuplicates(Normalized(NonBlank(options)))
    ensures "options" in FormErrors(question, options) ==>
              FormErrors(question, options)["options"]
              == (if HasDuplicates(Normalized(NonBlank(options))) then OptionsNotUnique else TooFewOptions)
  {
  }

  /** A form that passes validation has a question and two non-blank options that differ after normalising. */
  lemma AcceptedFormHasTwoDistinctOptions(question: string, options: seq<DraftOption>)
    requires FormErrors(question, options) == map[]
    ensures Trim(question) != ""
    ensures exists a, b :: a in options && b in options && Trim(a.text) != "" && Trim(b.text) != ""
                           && ToLower(Trim(a.text)) != ToLower(Trim(b.text))
  {
    FormErrorsRecorded(question, options);
    var valid := NonBlank(options);
    var texts := Normalized(valid);
    ElementsSize(texts);
    NonBlankMembers(options);
    assert texts[0] != texts[1];
    assert valid[0] in valid && valid[1] in valid;
  }

  /** The texts submitted: every option's raw text, in order, blank ones included. */
  function OptionTexts(options: seq<DraftOption>): (texts: seq<string>)
    ensures |texts| == |options|
    ensures forall i :: 0 <= i < |texts| ==> texts[i] == options[i].text
  {
    seq(|options|, i requires 0 <= i < |options| => options[i].text)
  }

  /** `(err as Error)?.message || "Failed to create poll."` */
  function SubmitErrorMessage(message: string): (shown: string)
    ensures shown != ""
    ensures message != "" ==> shown == message
  {
    if message == "" then CreateFallbackMessage else message
  }

  // ------------------------------------------------------------------ form

  /** The form's state. */
  class CreatePollForm {
    var question: string
    var options: seq<DraftOption>
    var isSubmitting: bool
    var errors: map<string, string>
    var successMsg: string
    var errorMsg: string
    /** The 1200 ms redirect to the home page is scheduled. */
    var navigationScheduled: bool

    /** The one editor bound that survives the id reuse: never more than six options. */
    ghost predicate Valid()
      reads this
    {
      |options| <= MaxOptions
    }

    constructor ()
      ensures Valid()
      ensures question == "" && options == InitialOptions() && !isSubmitting && errors == map[]
      ensures successMsg == "" && errorMsg == "" && !navigationScheduled
    {
      question := "";
      options := InitialOptions();
      isSubmitting := false;
      errors := map[];
      successMsg := "";
      errorMsg := "";
      navigationScheduled := false;
    }

    method SetQuestion(text: string)
      modifies this`question
      ensures question == text
    {
      question := text;
    }

    /** `addOption`, as written: the new id is the current length plus one. */
    method AddOption()
      requires Valid()
      modifies this`options
      ensures Valid() && options == Added(old(options))
    {
      if |options| < MaxOptions {
        options := options + [DraftOption(|options| + 1, "")];
      }
    }

    /** `removeOption`: above two options, every option with the id goes. */
    method RemoveOption(id: int)
      requires Valid()
      modifies this`options
      ensures Valid() && options == Removed(old(options), id)
    {
      if |options| > MinOptions {
        options := WithoutId(options, id);
      }
    }

    /** `updateOption`: every option with the id takes the new text. */
    method UpdateOption(id: int, text: string)
      requires Valid()
      modifies this`options
      ensures Valid() && options == Updated(old(options), id, text)
    {
      options := Updated(options, id, text);
    }

    /** `validateForm`: fills a fresh error dictionary, stores it, and accepts exactly when it is empty. */
    method ValidateForm() returns (valid: bool)
      modifies this`errors
      ensures errors == FormErrors(question, options)
      ensures valid <==> errors == map[]
    {
      var newErrors: map<string, string> := map[];
      var blankQuestion := Trim(question) == "";
      if blankQuestion {
        newErrors := newErrors["question" := QuestionRequired];
      }
      var validOptions := NonBlank(options);
      if |validOptions| < 2 {
        newErrors := newErrors["options" := TooFewOptions];
      }
      var duplicates := HasDuplicates(Normalized(validOptions));
      if duplicates {
        newErrors := newErrors["options" := OptionsNotUnique];
      }
      assert newErrors == ErrorsFor(blankQuestion, |validOptions| < 2, duplicates);
      errors := newErrors;
      valid := newErrors == map[];
    }

    /**
      `handleSubmit`, with the awaited create call's outcome as a parameter.
      An invalid form sends nothing. Otherwise the payload carries the
      question, every option's raw text and the token; success shows the
      confirmation and schedules the redirect, failure shows the error's
      message (or the fallback); the form is no longer submitting.
    */
    method HandleSubmit(idToken: Option<string>, outcome: Result<string>) returns (payload: Option<CreatePayload>)
      modifies this`errors, this`isSubmitting, this`successMsg, this`errorMsg, this`navigationScheduled
      ensures errors == FormErrors(question, options)
      ensures errors != map[] ==>
                && payload == None && isSubmitting == old(isSubmitting)
                && successMsg == old(successMsg) && errorMsg == old(errorMsg)
                && navigationScheduled == old(navigationScheduled)
      ensures errors == map[] ==>
                && payload == Some(CreatePayload(question, OptionTexts(options), idToken))
                && !isSubmitting
                && successMsg == (if outcome.Success? then CreatedMessage else "")
                && errorMsg == (if outcome.Failure? then SubmitErrorMessage(outcome.error) else "")
                && navigationScheduled == (old(navigationScheduled) || outcome.Success?)
    {
      payload := None;
      var valid := ValidateForm();
      if valid {
        payload := Submit(idToken, outcome);
      }
    }

    /** The part of `handleSubmit` after validation has passed. */
    method Submit(idToken: Option<string>, outcome: Result<string>) returns (payload: Option<CreatePayload>)
      modifies this`isSubmitting, this`successMsg, this`errorMsg, this`navigationScheduled
      ensures payload == Some(CreatePayload(question, OptionTexts(options), idToken))
      ensures !isSubmitting
      ensures successMsg == (if outcome.Success? then CreatedMessage else "")
      ensures errorMsg == (if outcome.Failure? then SubmitErrorMessage(outcome.error) else "")
      ensures navigationScheduled == (old(navigationScheduled) || outcome.Success?)
    {
      isSubmitting := true;
      successMsg := "";
      errorMsg := "";
      payload := Some(CreatePayload(question, OptionTexts(options), idToken));
      match outcome {
        case Success(_) =>
          successMsg := CreatedMessage;
          navigationScheduled := true;
        case Failure(message) =>
          errorMsg := SubmitErrorMessage(message);
      }
      isSubmitting := false;
    }
  }
}
