/** The users page: the user list fetched from the store, and the modal
    form that appends a new user with the next sequential id. */
module UsersPage {
  import opened Wrappers
  import opened Entities
  import opened Decimal

  /** The values of the add-user form. */
  datatype UserValues = UserValues(firstname: string, lastname: string, email: string, phone: string)

  const BlankUserValues: UserValues := UserValues("", "", "", "")

  /** `/^[0-9]+$/`: one or more ASCII digits and nothing else, matched
      character by character. */
  predicate MatchesDigits(s: string)
  {
    if |s| == 0 then false
    else if |s| == 1 then IsDigit(s[0])
    else IsDigit(s[0]) && MatchesDigits(s[1..])
  }

  /** The phone rule: required, only digits, at least ten characters. */
  predicate PhoneValid(phone: string)
  {
    |phone| > 0 && MatchesDigits(phone) && |phone| >= 10
  }

  /** The user form's schema: first name, last name and email required and
      the phone rule. */
  predicate UserValuesValid(v: UserValues)
  {
    |v.firstname| > 0 && |v.lastname| > 0 && |v.email| > 0 && PhoneValid(v.phone)
  }

  /** The digit pattern accepts exactly the non-empty texts of digits. */
  lemma {:induction false} MatchesDigitsIff(s: string)
    ensures MatchesDigits(s) <==> |s| >= 1 && AllDigits(s)
  {
    if |s| > 1 {
      MatchesDigitsIff(s[1..]);
      assert AllDigits(s) <==> IsDigit(s[0]) && AllDigits(s[1..]) by {
        if IsDigit(s[0]) && AllDigits(s[1..]) {
          forall i | 0 <= i < |s| ensures IsDigit(s[i]) {
            if i > 0 { assert s[i] == s[1..][i - 1]; }
          }
        }
      }
    }
  }

  /** A phone number passes exactly when it has at least ten characters,
      all of them ASCII digits. */
  lemma PhoneValidIff(phone: string)
    ensures PhoneValid(phone) <==> |phone| >= 10 && AllDigits(phone)
  {
    MatchesDigitsIff(phone);
  }

  /** The blank form and any form missing a required field are rejected. */
  lemma RequiredFields(v: UserValues)
    ensures !UserValuesValid(BlankUserValues)
    ensures v.firstname == [] || v.lastname == [] || v.email == [] || |v.phone| < 10 ==> !UserValuesValid(v)
  {
  }

  /** The user `addUser` builds from the submitted values: the given id,
      the name taken from the first- and last-name fields, no username. */
  function NewUser(v: UserValues, id: int): User
  {
    User(id, v.email, None, Name(v.firstname, v.lastname), v.phone)
  }

  class UsersPage {
    var users: seq<User>
    var loading: bool
    var showModal: bool

    constructor ()
      ensures users == [] && loading && !showModal
    {
      users := [];
      loading := true;
      showModal := false;
    }

    /** `loadUsers`: the fetched list, when the request succeeds; the
        loading flag ends false either way. */
    method LoadUsers(fetched: Result<seq<User>>)
      modifies this
      ensures fetched.Ok? ==> users == fetched.value
      ensures fetched.Err? ==> users == old(users)
      ensures !loading && showModal == old(showModal)
    {
      if fetched.Ok? {
        users := fetched.value;
      }
      loading := false;
    }

    method OpenModal()
      modifies this
      ensures showModal && users == old(users) && loading == old(loading)
    {
      showModal := true;
    }

    method CloseModal()
      modifies this
      ensures !showModal && users == old(users) && loading == old(loading)
    {
      showModal := false;
    }

    /** `addUser`: append exactly one user, numbered one past the length of
        the list, and close the modal. */
    method AddUser(v: UserValues)
      modifies this
      ensures users == old(users) + [NewUser(v, |old(users)| + 1)]
      ensures !showModal && loading == old(loading)
    {
      users := users + [NewUser(v, |users| + 1)];
      showModal := false;
    }

    /** The form's submit: only values the schema accepts reach `addUser`. */
    method SubmitForm(v: UserValues)
      modifies this
      ensures UserValuesValid(v) ==> users == old(users) + [NewUser(v, |old(users)| + 1)] && !showModal
      ensures !UserValuesValid(v) ==> users == old(users) && showModal == old(showModal)
      ensures loading == old(loading)
    {
      if UserValuesValid(v) {
        AddUser(v);
      }
    }
  }
}
