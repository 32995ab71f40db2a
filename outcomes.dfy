/** The fatal checks of the layer (`utils::Check`, `utils::Assert`) abort the
    program; the model returns them as values so that callers can see which
    check failed and that nothing was computed past it. */
module Outcomes {

  datatype Error =
    | BottomSizeProblem      // "GruLayer:bottom size problem."
    | TopSizeProblem         // "GruLayer:top size problem."
    | SettingProblem         // "GruLayer:setting problem."
    | GateProblem            // "GruLayer: gate problem."
    | SequenceLengthError    // "GruLayer: sequence length error."

  datatype Result<T> = Ok(value: T) | Fail(error: Error)

  datatype Outcome = Pass | Abort(error: Error)

  datatype Option<T> = None | Some(value: T)
}
