/**
  The display name and avatar initial derived from the signed-in profile
  (`src/hooks/useAuth.ts`). The profile's `name` and `email` claims are
  parameters; an absent claim and an empty one are treated alike, as the
  source's truthiness tests do.
*/
module Auth {
  import opened Wrappers

  const AnonymousName: string := "Anonymous"

  /** A claim counts only when it is present and non-empty. */
  predicate Given(claim: Option<string>)
  {
    claim.Some? && claim.value != ""
  }

  /** `s.split('@')[0]`: the text before the first '@', or all of `s` when it has none. */
  function BeforeAt(s: string): (r: string)
    ensures '@' !in r
    ensures |r| <= |s| && r == s[..|r|]
    ensures |r| < |s| ==> s[|r|] == '@'
  {
    if s == "" || s[0] == '@' then ""
    else
      var rest := BeforeAt(s[1..]);
      assert [s[0]] + rest == s[..|rest| + 1];
      [s[0]] + rest
  }

  /**
    `getUserName`: a given profile name as it is; otherwise, with a given
    email, the part of the email before its first '@'; otherwise
    "Anonymous".
  */
  function GetUserName(profileName: Option<string>, email: Option<string>): (name: string)
    ensures Given(profileName) ==> name == profileName.value
    ensures !Given(profileName) && Given(email) ==>
              && '@' !in name && |name| <= |email.value| && email.value[..|name|] == name
              && (|name| == |email.value| || email.value[|name|] == '@')
    ensures !Given(profileName) && !Given(email) ==> name == AnonymousName
  {
    if Given(profileName) then profileName.value
    else if Given(email) then BeforeAt(email.value)
    else AnonymousName
  }

  /** ASCII upper-casing of one character; every other character is kept. */
  function ToUpper(c: char): (u: char)
    ensures !('a' <= u <= 'z')
    ensures 'a' <= c <= 'z' ==> 'A' <= u <= 'Z' && u as int - 'A' as int == c as int - 'a' as int
    ensures !('a' <= c <= 'z') ==> u == c
  {
    if 'a' <= c <= 'z' then c - 'a' + 'A' else c
  }

  /** `getUserInitial`: the upper-cased first character of the name, or "" for an empty name. */
  function GetUserInitial(name: string): (initial: string)
    ensures |initial| <= 1
    ensures initial == "" <==> name == ""
    ensures initial != "" ==> initial[0] == ToUpper(name[0])
  {
    if name == "" then "" else [ToUpper(name[0])]
  }

  /** Only a profile name can put an '@' into the displayed name. */
  lemma DerivedNameHasNoAt(profileName: Option<string>, email: Option<string>)
    requires !Given(profileName)
    ensures '@' !in GetUserName(profileName, email)
  {
    if !Given(email) {
      assert GetUserName(profileName, email) == AnonymousName;
      assert forall i :: 0 <= i < |AnonymousName| ==> AnonymousName[i] != '@';
    }
  }

  /**
    The displayed initial is empty exactly when there is no profile name and
    the email starts with '@'; every other profile gets a one-character
    initial.
  */
  lemma InitialEmptyIff(profileName: Option<string>, email: Option<string>)
    ensures GetUserInitial(GetUserName(profileName, email)) == ""
        <==> !Given(profileName) && Given(email) && email.value[0] == '@'
  {
    if !Given(profileName) && Given(email) && email.value[0] != '@' {
      assert email.value[..0] == "";
    }
  }
}
