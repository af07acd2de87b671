/** The error maps every form of the console keeps: one message per field. */
module FormErrors {

  /** `{ ...prev, [name]: undefined }`: the error of `f` is gone, every other error is kept. */
  function ClearError<F(!new)>(errors: map<F, string>, f: F): (r: map<F, string>)
    ensures f !in r
    ensures forall g :: g != f ==> (g in r <==> g in errors)
    ensures forall g :: g in r ==> r[g] == errors[g]
  {
    errors - {f}
  }
}
