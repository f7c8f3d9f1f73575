/** The enumerations of the assembly domain, each with the numeric value the
    backend uses for it on the wire. */
module DomainCommon {

  /** Units of a length in a query. */
  datatype QueryLengthUnit = BasePairs | Bins | Pixels {
    function Value(): nat {
      match this
      case BasePairs => 0
      case Bins => 1
      case Pixels => 2
    }
  }

  /** Orientation of a contig. */
  datatype ContigDirection = Reversed | Forward {
    function Value(): nat {
      match this
      case Reversed => 0
      case Forward => 1
    }
  }

  /** Orientation of a scaffold. */
  datatype ScaffoldDirection = Reversed | Forward {
    function Value(): nat {
      match this
      case Reversed => 0
      case Forward => 1
    }
  }

  /** Whether a contig is shown at a resolution, and who decided it. */
  datatype ContigHideType = AutoHidden | AutoShown | ForcedHidden | ForcedShown {
    function Value(): nat {
      match this
      case AutoHidden => 0
      case AutoShown => 1
      case ForcedHidden => 2
      case ForcedShown => 3
    }
  }
}
