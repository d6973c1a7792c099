/** The signed-in user's profile and the name shown for it. */
module UserProfiles {
  import opened Wrappers
  import opened Text

  datatype UserProfile = UserProfile(
    id: string,
    fullName: string,
    firstName: Option<string>,
    lastName: Option<string>,
    nickname: Option<string>,
    email: Option<string>,
    countryCode: Option<string>)

  /** A nickname that is present and not the empty string (it may still be all whitespace). */
  predicate HasNickname(p: UserProfile) {
    p.nickname.Some? && p.nickname.value != ""
  }

  /** A name component that is present and not blank. */
  predicate HasName(component: Option<string>) {
    component.Some? && !IsBlank(component.value)
  }

  /** The `compactMap` step for one component: its trimmed text, or nothing when absent or blank. */
  function TrimmedComponent(component: Option<string>): (r: seq<string>)
    ensures |r| <= 1
    ensures r != [] <==> HasName(component)
    ensures r != [] ==> r[0] != "" && NoEdgeWhitespace(r[0])
  {
    match component
    case None => []
    case Some(s) => if IsBlank(s) then [] else [Trim(s)]
  }

  /** The first and last names that survive trimming, first name first. */
  function NameComponents(p: UserProfile): (r: seq<string>)
    ensures |r| <= 2
    ensures r == [] <==> !HasName(p.firstName) && !HasName(p.lastName)
    ensures forall k :: 0 <= k < |r| ==> r[k] != "" && NoEdgeWhitespace(r[k])
  {
    TrimmedComponent(p.firstName) + TrimmedComponent(p.lastName)
  }

  /**
   * The name shown for the user: a non-empty nickname, else the trimmed first
   * and last names joined by a space, else a non-blank full name, else the id.
   * Whatever the other fields hold, a profile with an id gets a visible name.
   */
  function DisplayName(p: UserProfile): (r: string)
    ensures p.id != "" ==> r != ""
  {
    if HasNickname(p) then p.nickname.value
    else
      var components := NameComponents(p);
      if components != [] then Joined(components, " ")
      else if !IsBlank(p.fullName) then p.fullName
      else p.id
  }

  /** A present, non-empty nickname wins and is returned verbatim. */
  lemma NicknameWins(p: UserProfile)
    requires HasNickname(p)
    ensures DisplayName(p) == p.nickname.value
  {
  }

  /** A whitespace-only nickname is not trimmed away: it is shown as it is, blank as it is. */
  lemma BlankNicknameShownUntrimmed(p: UserProfile)
    requires p.nickname.Some? && p.nickname.value != "" && AllWhitespace(p.nickname.value)
    ensures DisplayName(p) == p.nickname.value
    ensures IsBlank(DisplayName(p))
  {
    BlankIffAllWhitespace(p.nickname.value);
  }

  /**
   * Without a nickname, the usable first and last names are shown trimmed,
   * first before last, with one space between them when both are there and
   * no separator when only one is.
   */
  lemma {:induction false} NamesJoinedBySpace(p: UserProfile)
    requires !HasNickname(p)
    requires HasName(p.firstName) || HasName(p.lastName)
    ensures HasName(p.firstName) && HasName(p.lastName) ==>
      DisplayName(p) == Trim(p.firstName.value) + " " + Trim(p.lastName.value)
    ensures HasName(p.firstName) && !HasName(p.lastName) ==> DisplayName(p) == Trim(p.firstName.value)
    ensures !HasName(p.firstName) && HasName(p.lastName) ==> DisplayName(p) == Trim(p.lastName.value)
    ensures NoEdgeWhitespace(DisplayName(p)) && DisplayName(p) != ""
  {
    var first, last := TrimmedComponent(p.firstName), TrimmedComponent(p.lastName);
    var components := NameComponents(p);
    assert components == first + last;
    if first != [] && last != [] {
      var a, b := first[0], last[0];
      assert components == [a, b];
      JoinedPair(a, b, " ");
      var r := a + " " + b;
      assert r[0] == a[0] && r[|r| - 1] == b[|b| - 1];
    } else if first != [] {
      assert components == [first[0]];
    } else {
      assert components == [last[0]];
    }
  }

  /** With no nickname and no usable name parts, a non-blank full name is shown untrimmed. */
  lemma FullNameFallback(p: UserProfile)
    requires !HasNickname(p) && !HasName(p.firstName) && !HasName(p.lastName)
    requires !IsBlank(p.fullName)
    ensures DisplayName(p) == p.fullName
  {
  }

  /** When nothing else is usable, the id is shown. */
  lemma IdFallback(p: UserProfile)
    requires !HasNickname(p) && !HasName(p.firstName) && !HasName(p.lastName)
    requires IsBlank(p.fullName)
    ensures DisplayName(p) == p.id
  {
  }

  /** The id is shown only when the nickname is absent or empty and every name field is blank. */
  lemma {:induction false} IdShownOnlyAsLastResort(p: UserProfile)
    requires DisplayName(p) != p.id
    ensures HasNickname(p) || HasName(p.firstName) || HasName(p.lastName) || !AllWhitespace(p.fullName)
  {
    BlankIffAllWhitespace(p.fullName);
  }
}
