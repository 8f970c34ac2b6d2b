/** The optional-value wrapper used throughout the model, standing for a
    JavaScript value that may be `null`, `undefined` or `NaN`. */
module Options {

  datatype Option<+T> = None | Some(value: T)
}
