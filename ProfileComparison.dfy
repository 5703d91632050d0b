/**
 * The username list of the comparison form in
 * `src/components/ProfileComparison.tsx`: edit one entry, add an entry,
 * remove an entry, and submit the non-blank entries.
 */
module ProfileComparison {
  import opened JsText
  import Lists

  /** `username.trim() !== ''` */
  predicate NonBlank(username: string) {
    Trim(username) != ""
  }

  /** `usernames.filter(username => username.trim() !== '')` */
  function ValidUsernames(usernames: seq<string>): seq<string> {
    Lists.Filter(usernames, NonBlank)
  }

  /**
   * The entries passed on are exactly the entries with a character that is
   * not white space, untrimmed and in their original order.
   */
  lemma ValidUsernamesSpec(usernames: seq<string>)
    ensures var valid := ValidUsernames(usernames);
      && Lists.IsSubsequence(valid, usernames)
      && (forall i :: 0 <= i < |valid| ==> valid[i] in usernames && !IsBlank(valid[i]))
      && (forall i :: 0 <= i < |usernames| && !IsBlank(usernames[i]) ==> usernames[i] in valid)
      && (forall u :: multiset(valid)[u] == (if IsBlank(u) then 0 else multiset(usernames)[u]))
  {
    Lists.FilterIsSubsequence(usernames, NonBlank);
    ValidUsernamesMembers(usernames);
    ValidUsernamesCounts(usernames);
  }

  lemma ValidUsernamesMembers(usernames: seq<string>)
    ensures var valid := ValidUsernames(usernames);
      && (forall i :: 0 <= i < |valid| ==> valid[i] in usernames && !IsBlank(valid[i]))
      && (forall i :: 0 <= i < |usernames| && !IsBlank(usernames[i]) ==> usernames[i] in valid)
  {
    var valid := ValidUsernames(usernames);
    forall i | 0 <= i < |valid| ensures !IsBlank(valid[i]) {
      TrimEmptyIffBlank(valid[i]);
    }
    forall i | 0 <= i < |usernames| && !IsBlank(usernames[i]) ensures usernames[i] in valid {
      TrimEmptyIffBlank(usernames[i]);
    }
  }

  lemma ValidUsernamesCounts(usernames: seq<string>)
    ensures forall u :: multiset(ValidUsernames(usernames))[u] == (if IsBlank(u) then 0 else multiset(usernames)[u])
  {
    Lists.FilterMultiplicity(usernames, NonBlank);
    forall u ensures NonBlank(u) <==> !IsBlank(u) {
      TrimEmptyIffBlank(u);
    }
  }

  /** At least two entries are passed on iff two different entries are non-blank. */
  lemma AtLeastTwoValid(usernames: seq<string>)
    ensures |ValidUsernames(usernames)| >= 2
        <==> exists i, j :: 0 <= i < j < |usernames| && !IsBlank(usernames[i]) && !IsBlank(usernames[j])
  {
    Lists.FilterAtLeastTwo(usernames, NonBlank);
    forall i | 0 <= i < |usernames| ensures NonBlank(usernames[i]) <==> !IsBlank(usernames[i]) {
      TrimEmptyIffBlank(usernames[i]);
    }
  }

  /** `usernames.filter((_, i) => i !== index)` */
  function WithoutIndex(usernames: seq<string>, index: int): seq<string> {
    if |usernames| == 0 then []
    else WithoutIndex(usernames[..|usernames| - 1], index)
         + (if |usernames| - 1 == index then [] else [usernames[|usernames| - 1]])
  }

  /** Filtering by position deletes exactly that position, or nothing when it is out of range. */
  lemma {:induction false} WithoutIndexSpec(usernames: seq<string>, index: int)
    ensures 0 <= index < |usernames| ==> WithoutIndex(usernames, index) == usernames[..index] + usernames[index + 1..]
    ensures !(0 <= index < |usernames|) ==> WithoutIndex(usernames, index) == usernames
  {
    if |usernames| > 0 {
      var prefix := usernames[..|usernames| - 1];
      WithoutIndexSpec(prefix, index);
      if index < |usernames| - 1 && 0 <= index {
        assert prefix[..index] == usernames[..index];
        assert prefix[index + 1..] + [usernames[|usernames| - 1]] == usernames[index + 1..];
      } else if index == |usernames| - 1 {
        assert usernames[..index] == prefix;
      } else {
        assert prefix + [usernames[|usernames| - 1]] == usernames;
      }
    }
  }

  class ComparisonForm {
    var usernames: seq<string>

    /** The form never shows fewer than two fields. */
    predicate Valid()
      reads this
    {
      |usernames| >= 2
    }

    constructor()
      ensures usernames == ["", ""]
      ensures Valid()
    {
      usernames := ["", ""];
    }

    /** `handleUsernameChange(index, value)`, called from the field at `index`. */
    method ChangeUsername(index: nat, value: string)
      requires index < |usernames|
      modifies this
      ensures usernames == old(usernames)[index := value]
      ensures |usernames| == |old(usernames)| && usernames[index] == value
      ensures forall i :: 0 <= i < |usernames| && i != index ==> usernames[i] == old(usernames)[i]
      ensures old(Valid()) ==> Valid()
    {
      var newUsernames := usernames;
      newUsernames := newUsernames[index := value];
      usernames := newUsernames;
    }

    /** The add button: one more empty field at the end. */
    method AddProfile()
      modifies this
      ensures usernames == old(usernames) + [""]
      ensures old(Valid()) ==> Valid()
    {
      usernames := usernames + [""];
    }

    /** The remove button, which only the fields after the first two have. */
    method RemoveProfile(index: nat)
      requires 1 < index < |usernames|
      modifies this
      ensures usernames == old(usernames)[..index] + old(usernames)[index + 1..]
      ensures |usernames| == |old(usernames)| - 1
      ensures Valid()
    {
      WithoutIndexSpec(usernames, index);
      usernames := WithoutIndex(usernames, index);
    }

    /**
     * `handleCompare`: `onCompare` is called, with the non-blank entries, iff
     * there are at least two of them; None stands for no call.
     */
    function HandleCompare(): (r: Option<seq<string>>)
      reads this
      ensures r.Some? <==> exists i, j :: 0 <= i < j < |usernames| && !IsBlank(usernames[i]) && !IsBlank(usernames[j])
      ensures r.Some? ==> r.value == ValidUsernames(usernames)
    {
      AtLeastTwoValid(usernames);
      var validUsernames := ValidUsernames(usernames);
      if |validUsernames| >= 2 then Some(validUsernames) else None
    }
  }

  /** A fresh form submits nothing: both fields are empty. */
  lemma FreshFormSubmitsNothing()
    ensures ValidUsernames(["", ""]) == []
  {
    assert Trim("") == "";
  }
}
