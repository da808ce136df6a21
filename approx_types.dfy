// The `ApproxType` enumeration of sub_units/utils.py: one tag per
// uncertainty-quantification strategy, each with a short abbreviation
// (`value[0]`) and a long name (`value[1]`).
module ApproxTypes {

  datatype ApproxType = BS | LS | MCMC | SM | PyMC3 | Hess {

    /** `value[0]`: the abbreviation used in report columns and plots. */
    function Abbr(): string {
      match this
      case BS => "BS"
      case LS => "LS"
      case MCMC => "MCMC"
      case SM => "SM"
      case PyMC3 => "PyMC3"
      case Hess => "Hess"
    }

    /** `value[1]`: the long name used in report columns as first built. */
    function LongName(): string {
      match this
      case BS => "bootstrap"
      case LS => "likelihood_samples"
      case MCMC => "random_walk"
      case SM => "statsmodels"
      case PyMC3 => "PyMC3"
      case Hess => "hessian"
    }
  }

  /** Iteration order of the enumeration, fixed by its `__order__`. */
  const AllApproxTypes: seq<ApproxType> := [BS, LS, MCMC, SM, PyMC3, Hess]

  /** The tag's position in the iteration order. */
  function Index(a: ApproxType): (i: nat)
    ensures i < |AllApproxTypes| && AllApproxTypes[i] == a
  {
    match a
    case BS => 0
    case LS => 1
    case MCMC => 2
    case SM => 3
    case PyMC3 => 4
    case Hess => 5
  }

  /** Every tag is iterated exactly once. */
  lemma ApproxTypeTable()
    ensures |AllApproxTypes| == 6
    ensures forall a: ApproxType :: a in AllApproxTypes
    ensures forall i, j :: 0 <= i < j < |AllApproxTypes| ==> AllApproxTypes[i] != AllApproxTypes[j]
  {
    forall a: ApproxType ensures a in AllApproxTypes {
      match a
      case BS => assert AllApproxTypes[0] == a;
      case LS => assert AllApproxTypes[1] == a;
      case MCMC => assert AllApproxTypes[2] == a;
      case SM => assert AllApproxTypes[3] == a;
      case PyMC3 => assert AllApproxTypes[4] == a;
      case Hess => assert AllApproxTypes[5] == a;
    }
  }

  /** No two tags share an abbreviation or a long name, so both columns of
      the enumeration identify the strategy. */
  lemma ApproxNamesDistinct(a: ApproxType, b: ApproxType)
    ensures a.Abbr() == b.Abbr() <==> a == b
    ensures a.LongName() == b.LongName() <==> a == b
  {
  }
}
