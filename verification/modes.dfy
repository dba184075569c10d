/** The two kinds of pass over a data loader. */
module Modes {

  /** `Mode.TRAIN` and `Mode.VAL`: passed into every call, never stored. */
  datatype Mode = Train | Val
}
