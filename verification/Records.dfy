/** Context records: the knowledge rows, their authority ladder and their scopes. */
module Records {
  import opened Common

  datatype Authority = UserConfirmed | ProjectDerived | SystemDerived | Imported | Observed | AiInferred

  function AuthorityRank(a: Authority): nat {
    match a
    case UserConfirmed => 100
    case ProjectDerived => 50
    case SystemDerived => 40
    case Imported => 30
    case Observed => 20
    case AiInferred => 10
  }

  /** The user's word outranks all else; what a model inferred is outranked by all else. */
  lemma AuthorityLadder()
    ensures AuthorityRank(UserConfirmed) > AuthorityRank(ProjectDerived) > AuthorityRank(SystemDerived)
            > AuthorityRank(Imported) > AuthorityRank(Observed) > AuthorityRank(AiInferred)
  {
  }

  datatype Scope = Global | Project | Task

  datatype RecordStatus = Active | Superseded | Rejected | Expired

  /** An evidence citation as text: a number, possibly padded with blanks, or something else. */
  datatype Citation = Cite(id: int, padded: bool) | Garbled(text: string)

  datatype Record = Record(
    kind: string, namespace: string, content: string, authority: Authority, scope: Scope,
    workspace: Option<string>, task: Option<string>, status: RecordStatus,
    evidence: seq<Citation>, origin: Option<string>, createdAt: nat, updatedAt: nat)
}
