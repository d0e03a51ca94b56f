/** The result of a form check: a flag saying whether the form is wrongly
    filled, and the text explaining what is wrong. */
module FormError {

  class AopdsFormError {
    var errorcode: bool
    var errordisplay: string

    /** A new error object: no error yet and an empty explanation. */
    constructor ()
      ensures !errorcode && errordisplay == ""
    {
      errorcode := false;
      errordisplay := "";
    }

    method SetErrorcode(errorcode: bool)
      modifies this`errorcode
      ensures this.errorcode == errorcode
    {
      this.errorcode := errorcode;
    }

    /** Appends `s` to the explanation; the earlier text is kept as a prefix. */
    method AddToErrordisplay(s: string)
      modifies this`errordisplay
      ensures errordisplay == old(errordisplay) + s
      ensures |old(errordisplay)| <= |errordisplay| && errordisplay[..|old(errordisplay)|] == old(errordisplay)
    {
      errordisplay := errordisplay + s;
    }

    /** Replaces the whole explanation. */
    method SetErrordisplay(errordisplay: string)
      modifies this`errordisplay
      ensures this.errordisplay == errordisplay
    {
      this.errordisplay := errordisplay;
    }
  }
}
