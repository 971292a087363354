/** `ensureMe` and `patchUser`: the default display name, the name
    formatting and the shaping of the patch parameters. The store queries
    and the identity-provider calls are outside the model; their inputs and
    results are the parameters and results here. */
module Profile {
  import opened Values
  import opened Chars
  import Seqs

  const UnnamedUser := "Unnamed user"
  const SignupBonus: real := 300.0
  const InitialBalance: real := 0.0

  /** The first truthy of the `x-default-name` header, the token's
      `given_name`, the token's `name`, else "Unnamed user". */
  function DefaultName(header: Option<string>, givenName: Option<string>, name: Option<string>): (r: string)
    ensures r != ""
    ensures Truthy(header) ==> r == header.value
    ensures !Truthy(header) && Truthy(givenName) ==> r == givenName.value
    ensures !Truthy(header) && !Truthy(givenName) && Truthy(name) ==> r == name.value
    ensures !Truthy(header) && !Truthy(givenName) && !Truthy(name) ==> r == UnnamedUser
  {
    if Truthy(header) then header.value
    else if Truthy(givenName) then givenName.value
    else OrElse(name, UnnamedUser)
  }

  /** What `ensureMe` does: reject a token without `sub`, or run the
      provisioning query with the fallback name, balance 0 and the signup
      bonus of 300. */
  datatype EnsureDecision =
    | EnsureUnauthorized
    | Provision(sub: string, name: string, initialBalance: real, signupBonus: real)

  function EnsureMe(sub: Option<string>, header: Option<string>, givenName: Option<string>, name: Option<string>): (d: EnsureDecision)
    ensures d.EnsureUnauthorized? <==> !Truthy(sub)
    ensures d.Provision? ==>
      d.sub == sub.value && d.name != "" && d.initialBalance == 0.0 && d.signupBonus == 300.0
    ensures d.Provision? ==> d.name == DefaultName(header, givenName, name)
  {
    if !Truthy(sub) then EnsureUnauthorized
    else Provision(sub.value, DefaultName(header, givenName, name), InitialBalance, SignupBonus)
  }

  // ---------------------------------------------------------------------
  // Name formatting

  /** `r` is `s` with white space only before position `k` and after
      `r`. */
  predicate TrimmedAt(s: string, r: string, k: int) {
    && OccursAt(s, r, k)
    && (forall i :: 0 <= i < k ==> IsSpace(s[i]))
    && (forall i :: k + |r| <= i < |s| ==> IsSpace(s[i]))
  }

  /** `trim()`, with the ASCII white-space characters: the piece of `s`
      left after dropping the white space at both ends. */
  function Trim(s: string): (r: string)
    ensures |r| <= |s|
    ensures r == "" || (!IsSpace(r[0]) && !IsSpace(r[|r| - 1]))
    ensures exists k :: 0 <= k <= |s| && TrimmedAt(s, r, k)
    decreases |s|
  {
    if |s| == 0 then
      assert TrimmedAt(s, s, 0);
      s
    else if IsSpace(s[0]) then
      var r := Trim(s[1..]);
      TrimmedInTail(s, r);
      r
    else if IsSpace(s[|s| - 1]) then
      var r := Trim(s[..|s| - 1]);
      TrimmedInFront(s, s[..|s| - 1], r);
      r
    else
      assert TrimmedAt(s, s, 0);
      s
  }

  lemma TrimmedInTail(s: string, r: string)
    requires |s| > 0 && IsSpace(s[0])
    requires exists k :: 0 <= k <= |s| - 1 && TrimmedAt(s[1..], r, k)
    ensures exists k :: 0 <= k <= |s| && TrimmedAt(s, r, k)
  {
    var k :| 0 <= k <= |s| - 1 && TrimmedAt(s[1..], r, k);
    assert s[k + 1..k + 1 + |r|] == s[1..][k..k + |r|];
    forall i | 0 <= i < k + 1 ensures IsSpace(s[i]) {
      if i > 0 { assert s[i] == s[1..][i - 1]; }
    }
    forall i | k + 1 + |r| <= i < |s| ensures IsSpace(s[i]) {
      assert s[i] == s[1..][i - 1];
    }
    assert TrimmedAt(s, r, k + 1);
  }

  lemma TrimmedInFront(s: string, front: string, r: string)
    requires |s| > 0 && IsSpace(s[|s| - 1]) && front == s[..|s| - 1]
    requires exists k :: 0 <= k <= |front| && TrimmedAt(front, r, k)
    ensures exists k :: 0 <= k <= |s| && TrimmedAt(s, r, k)
  {
    var k :| 0 <= k <= |front| && TrimmedAt(front, r, k);
    assert s[k..k + |r|] == s[..|s| - 1][k..k + |r|];
    forall i | 0 <= i < k ensures IsSpace(s[i]) {
      assert s[i] == s[..|s| - 1][i];
    }
    forall i | k + |r| <= i < |s| ensures IsSpace(s[i]) {
      if i < |s| - 1 { assert s[i] == s[..|s| - 1][i]; }
    }
    assert TrimmedAt(s, r, k);
  }

  /** The index of the first occurrence of `c`. */
  function IndexOf(s: string, c: char): (i: nat)
    requires c in s
    ensures i < |s| && s[i] == c && c !in s[..i]
  {
    if s[0] == c then 0 else 1 + IndexOf(s[1..], c)
  }

  /** `split(" ")`: one piece more than there are spaces; pieces between
      two adjacent spaces are empty. */
  function SplitSpaces(s: string): (ws: seq<string>)
    ensures |ws| >= 1
    ensures forall k :: 0 <= k < |ws| ==> ' ' !in ws[k]
    ensures Seqs.Join(ws, " ") == s
    decreases |s|
  {
    if ' ' !in s then [s]
    else
      var i := IndexOf(s, ' ');
      var rest := SplitSpaces(s[i + 1..]);
      assert s == s[..i] + " " + s[i + 1..];
      [s[..i]] + rest
  }

  /** `word.charAt(0).toUpperCase() + word.slice(1).toLowerCase()`. */
  function Capitalize(w: string): (r: string)
    ensures |r| == |w|
  {
    if |w| == 0 then "" else [ToUpper(w[0])] + LowerString(w[1..])
  }

  function CapitalizeAll(ws: seq<string>): (r: seq<string>)
    ensures |r| == |ws|
    ensures forall k :: 0 <= k < |ws| ==> r[k] == Capitalize(ws[k])
  {
    seq(|ws|, k requires 0 <= k < |ws| => Capitalize(ws[k]))
  }

  /** The pointwise reading of the formatting: a character is upper-cased
      when it starts the string or follows a space, lower-cased otherwise. */
  function TitleCase(t: string): (r: string)
    ensures |r| == |t|
  {
    seq(|t|, i requires 0 <= i < |t| => if i == 0 || t[i - 1] == ' ' then ToUpper(t[i]) else ToLower(t[i]))
  }

  /** The formatting `patchUser` applies to a non-empty string name. */
  function FormatName(name: string): (r: string)
    ensures r == TitleCase(Trim(name))
    ensures |r| == |Trim(name)|
    ensures forall i :: 0 <= i < |r| ==> (r[i] == ' ' <==> Trim(name)[i] == ' ')
  {
    var t := Trim(name);
    SplitMapJoinIsTitleCase(t);
    TitleCaseKeepsSpaces(t);
    Seqs.Join(CapitalizeAll(SplitSpaces(t)), " ")
  }

  /** Title-casing leaves every space where it was and adds none. */
  lemma TitleCaseKeepsSpaces(t: string)
    ensures forall i :: 0 <= i < |t| ==> (TitleCase(t)[i] == ' ' <==> t[i] == ' ')
  {
    forall i | 0 <= i < |t| ensures TitleCase(t)[i] == ' ' <==> t[i] == ' ' {
      CaseKeepsSpace(t[i]);
    }
  }

  /** A piece without spaces is capitalised exactly as title-casing does. */
  lemma CapitalizeIsTitleCase(w: string)
    requires ' ' !in w
    ensures Capitalize(w) == TitleCase(w)
  {
    forall k | 0 <= k < |w| ensures Capitalize(w)[k] == TitleCase(w)[k] {
      if k > 0 { assert w[k - 1] in w; }
    }
  }

  /** Title-casing splits at the first space. */
  lemma TitleCaseAtSpace(t: string, i: nat)
    requires i < |t| && t[i] == ' '
    ensures TitleCase(t) == TitleCase(t[..i]) + " " + TitleCase(t[i + 1..])
  {
    var lhs := TitleCase(t);
    var rhs := TitleCase(t[..i]) + " " + TitleCase(t[i + 1..]);
    forall k | 0 <= k < |t| ensures lhs[k] == rhs[k] {
      if k > i + 1 {
        assert t[k - 1] == t[i + 1..][k - i - 2];
      }
    }
  }

  lemma SplitAtFirstSpace(t: string)
    requires ' ' in t
    ensures SplitSpaces(t) == [t[..IndexOf(t, ' ')]] + SplitSpaces(t[IndexOf(t, ' ') + 1..])
  {
  }

  lemma CapitalizeAllCons(w: string, ws: seq<string>)
    ensures CapitalizeAll([w] + ws) == [Capitalize(w)] + CapitalizeAll(ws)
  {
    assert CapitalizeAll([w] + ws)[1..] == CapitalizeAll(ws);
  }

  lemma JoinCons(x: string, xs: seq<string>, sep: string)
    requires |xs| >= 1
    ensures Seqs.Join([x] + xs, sep) == x + sep + Seqs.Join(xs, sep)
  {
    assert ([x] + xs)[1..] == xs;
  }

  /** Splitting on spaces, capitalising each piece and joining with spaces
      is the pointwise title-casing. */
  lemma {:induction false} SplitMapJoinIsTitleCase(t: string)
    ensures Seqs.Join(CapitalizeAll(SplitSpaces(t)), " ") == TitleCase(t)
    decreases |t|
  {
    if ' ' !in t {
      assert CapitalizeAll([t]) == [Capitalize(t)];
      CapitalizeIsTitleCase(t);
    } else {
      var i := IndexOf(t, ' ');
      var w, rest := t[..i], t[i + 1..];
      var tail := SplitSpaces(rest);
      SplitAtFirstSpace(t);
      CapitalizeAllCons(w, tail);
      JoinCons(Capitalize(w), CapitalizeAll(tail), " ");
      SplitMapJoinIsTitleCase(rest);
      CapitalizeIsTitleCase(w);
      TitleCaseAtSpace(t, i);
    }
  }

  /** Case mapping never turns a character into white space or back. */
  lemma CaseKeepsSpace(c: char)
    ensures IsSpace(ToUpper(c)) <==> IsSpace(c)
    ensures IsSpace(ToLower(c)) <==> IsSpace(c)
    ensures ToUpper(c) == ' ' <==> c == ' '
    ensures ToLower(c) == ' ' <==> c == ' '
  {
  }

  /** Title-casing a title-cased string changes nothing. */
  lemma TitleCaseIdempotent(t: string)
    ensures TitleCase(TitleCase(t)) == TitleCase(t)
  {
    var r := TitleCase(t);
    forall k | 0 <= k < |t| ensures TitleCase(r)[k] == r[k] {
      if k > 0 { CaseKeepsSpace(t[k - 1]); }
    }
  }

  /** Formatting a formatted name changes nothing. */
  lemma FormatIdempotent(name: string)
    ensures FormatName(FormatName(name)) == FormatName(name)
  {
    var t := Trim(name);
    var r := FormatName(name);
    if |t| > 0 {
      CaseKeepsSpace(t[0]);
      CaseKeepsSpace(t[|t| - 1]);
    }
    TrimOfTrimmed(r);
    TitleCaseIdempotent(t);
  }

  /** A string without white space at either end trims to itself. */
  lemma TrimOfTrimmed(s: string)
    requires s == "" || (!IsSpace(s[0]) && !IsSpace(s[|s| - 1]))
    ensures Trim(s) == s
  {
  }

  /** A string made only of white space trims to the empty string. */
  lemma {:induction false} TrimOfBlank(s: string)
    requires forall i :: 0 <= i < |s| ==> IsSpace(s[i])
    ensures Trim(s) == ""
    decreases |s|
  {
    if |s| > 0 {
      TrimOfBlank(s[1..]);
    }
  }

  // ---------------------------------------------------------------------
  // Patch parameters

  /** The `name` field of the body: missing or falsy non-string, a string,
      or a truthy value of another type. */
  datatype NameField = NameAbsent | NameString(s: string) | NameOther

  /** A value passed to the patch query: `null`, a string, or a non-string
      passed through unchanged. */
  datatype PatchValue = Null | Text(s: string) | PassedThrough

  datatype PatchParams = PatchParams(userId: string, img: Option<string>, name: PatchValue, riskScore: Option<string>)

  /** `formattedName || null`. */
  function PatchName(n: NameField): (v: PatchValue)
    ensures n.NameString? && n.s != "" && FormatName(n.s) != "" ==> v == Text(FormatName(n.s))
    ensures n.NameString? && FormatName(n.s) == "" ==> v == Null
    ensures n.NameAbsent? ==> v == Null
    ensures n.NameOther? ==> v == PassedThrough
  {
    match n
    case NameAbsent => Null
    case NameOther => PassedThrough
    case NameString(s) =>
      if s == "" then Null
      else
        var f := FormatName(s);
        if f == "" then Null else Text(f)
  }

  /** A name made only of white space is dropped rather than stored empty. */
  lemma BlankNameNotPatched(s: string)
    requires forall i :: 0 <= i < |s| ==> IsSpace(s[i])
    ensures PatchName(NameString(s)) == Null
  {
    TrimOfBlank(s);
  }

  datatype PatchDecision = PatchUnauthorized | PatchNotFound | Patch(params: PatchParams)

  /** `patchUser`: `lookup` is the id the by-sub query finds, if any. */
  function PatchUser(sub: Option<string>, img: Option<string>, name: NameField, lookup: Option<string>): (d: PatchDecision)
    ensures !Truthy(sub) ==> d == PatchUnauthorized
    ensures Truthy(sub) && lookup.None? ==> d == PatchNotFound
    ensures d.Patch? <==> Truthy(sub) && lookup.Some?
    ensures d.Patch? ==>
      && d.params.userId == lookup.value
      && d.params.riskScore == None
      && d.params.img == (if Truthy(img) then img else None)
      && d.params.name == PatchName(name)
  {
    if !Truthy(sub) then PatchUnauthorized
    else if lookup.None? then PatchNotFound
    else Patch(PatchParams(lookup.value, if Truthy(img) then img else None, PatchName(name), None))
  }

  /** No request body can set the risk score. */
  lemma RiskScoreNeverPatched(sub: Option<string>, img: Option<string>, name: NameField, lookup: Option<string>)
    ensures PatchUser(sub, img, name, lookup).Patch? ==> PatchUser(sub, img, name, lookup).params.riskScore == None
  {
  }

  /** A name starting with the micro sign `µ` is capitalised to the Greek
      capital `Μ`, as `toUpperCase` does, not left unchanged. */
  lemma MicroSignCapitalized()
    ensures FormatName("\U{B5}m") == "\U{39C}m"
  {
    TrimOfTrimmed("\U{B5}m");
    assert TitleCase("\U{B5}m")[0] == ToUpper('\U{B5}');
    assert TitleCase("\U{B5}m")[1] == ToLower('m');
  }
}
