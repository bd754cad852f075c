/**
 * The new-team form (src/pages/teams/CreateTeam.tsx): its schema, the
 * company guard, and the payload, which leaves the description out.
 */
module CreateTeam {
  import opened Wrappers
  import opened Domain
  import opened Http

  datatype TeamForm = TeamForm(name: string, description: string)

  const NameTooShort := "Numele echipei trebuie să aibă cel puțin 3 caractere"
  const NameTooLong := "Numele echipei nu poate depăși 50 de caractere"
  const DescriptionTooShort := "Descrierea trebuie să aibă cel puțin 10 caractere"
  const DescriptionTooLong := "Descrierea nu poate depăși 500 de caractere"

  /** The schema's messages, one per failing field, in field order. */
  function TeamFormErrors(values: TeamForm): (errors: seq<string>)
    ensures errors == [] <==> 3 <= |values.name| <= 50 && 10 <= |values.description| <= 500
    ensures NameTooShort in errors <==> |values.name| < 3
    ensures NameTooLong in errors <==> |values.name| > 50
    ensures DescriptionTooShort in errors <==> |values.description| < 10
    ensures DescriptionTooLong in errors <==> |values.description| > 500
    ensures |errors| == (if 3 <= |values.name| <= 50 then 0 else 1)
                      + (if 10 <= |values.description| <= 500 then 0 else 1)
    ensures !(3 <= |values.name| <= 50) ==> errors[0] == if |values.name| < 3 then NameTooShort else NameTooLong
    ensures !(10 <= |values.description| <= 500) ==>
      errors[|errors| - 1] == if |values.description| < 10 then DescriptionTooShort else DescriptionTooLong
  {
    (if |values.name| < 3 then [NameTooShort] else if |values.name| > 50 then [NameTooLong] else [])
    + (if |values.description| < 10 then [DescriptionTooShort]
       else if |values.description| > 500 then [DescriptionTooLong] else [])
  }

  /** `createTeam`: only the name and the company go to the server. */
  function CreateTeamRequest(name: string, companyId: string): (r: Request)
    ensures r.verb == Post && r.path == "/teams" && r.query == [] && r.body.Some?
    ensures Keys(r.body.value) == ["name", "companyId"]
    ensures Lookup(r.body.value, "name") == Some(name) && Lookup(r.body.value, "companyId") == Some(companyId)
  {
    Request(Post, "/teams", [], Some([("name", name), ("companyId", companyId)]))
  }

  class CreateTeamPage {
    const user: Option<User>
    var loading: bool
    /** The last `navigate` call, if any. */
    var navigatedTo: Option<string>

    constructor (user: Option<User>)
      ensures this.user == user && !loading && navigatedTo == None
    {
      this.user := user;
      loading := false;
      navigatedTo := None;
    }

    /**
     * Submitting up to the awaited call: the schema blocks invalid values
     * before `onSubmit`, and `onSubmit` stops without a company.
     */
    method BeginSubmit(values: TeamForm) returns (sent: Option<Request>)
      modifies this`loading
      ensures TeamFormErrors(values) != [] || CompanyOf(user).None? ==> sent == None && loading == old(loading)
      ensures TeamFormErrors(values) == [] && CompanyOf(user).Some? ==>
        sent == Some(CreateTeamRequest(values.name, user.value.companyId)) && loading
    {
      sent := None;
      if TeamFormErrors(values) != [] || CompanyOf(user).None? {
        return;
      }
      loading := true;
      sent := Some(CreateTeamRequest(values.name, user.value.companyId));
    }

    /** The call settled: the spinner stops either way; success leaves for the team list. */
    method Settle(reply: Response<Team>)
      modifies this
      ensures !loading
      ensures navigatedTo == if reply.Success? then Some("/teams") else old(navigatedTo)
    {
      if reply.Success? {
        navigatedTo := Some("/teams");
      }
      loading := false;
    }
  }
}
