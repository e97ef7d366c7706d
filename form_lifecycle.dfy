/** The `onSubmit` lifecycle the three forms share (src/pages/Contact.jsx,
    src/layout/Mainlayout.jsx, src/sections/Footer.jsx): a `loading` flag
    that blocks a second submission, disables the inputs and relabels the
    button; the form reset only on a 201; and, for the inquiry modal, a
    "close" dispatched to the store on a 201 and a close button that does
    nothing while a request is out.

    The asynchronous handler is split at its `await`: `Submit` runs up to
    the request and `Complete` runs from the reply to the `finally`. */
module FormLifecycle {
  import opened Wrappers
  import opened FormRules
  import ModalReducer
  import FormApi

  /** How `axios.post` settles: it resolves with a 2xx status and rejects
      on any other status or a network failure. */
  datatype Reply = Resolved(status: int) | Rejected

  /** The SweetAlert dialog a completion shows. */
  datatype Alert = SuccessAlert | ErrorAlert

  /** The submit button's text. */
  function ButtonLabel(kind: FormKind, loading: bool): (caption: string)
    ensures caption == "Submitting..." <==> loading
  {
    if loading then "Submitting..."
    else match kind
      case ContactForm => "Submit"
      case InquiryForm => "Submit Inquiry"
      case NewsletterForm => "Subscribe"
  }

  /** The inputs, the submit button and the modal's close button are all
      `disabled={loading}`. */
  predicate Enabled(loading: bool)
  {
    !loading
  }

  /** The modal is in the page exactly when the store says it is open. */
  predicate ModalRendered(s: ModalReducer.ModalState)
  {
    s.isOpen
  }

  /** After any sequence of dispatches from the initial store, the modal is
      in the page exactly when the last "open"/"close" was "open". */
  lemma ModalShownAfter(acts: seq<ModalReducer.Action>)
    ensures ModalRendered(ModalReducer.Run(ModalReducer.Initial, acts)) <==> ModalReducer.LastSwitch(acts) == Some(true)
  {
    ModalReducer.InitialRun(acts);
  }

  /** How axios hands a server reply to `onSubmit`. */
  function ReplyOf(r: FormApi.Response): (reply: Reply)
    ensures reply == Resolved(201) <==> r.status == 201
    ensures reply.Rejected? <==> !(200 <= r.status < 300)
  {
    if 200 <= r.status < 300 then Resolved(r.status) else Rejected
  }

  /** Every reply a form endpoint gives reaches the form either as the 201
      that resets it or as a rejection that shows the error alert. */
  lemma EveryReplyResetsOrFails(kind: FormApi.Kind, ext: FormApi.Externals, store: seq<FormApi.Record>,
                                cached: Option<FormApi.Conn>, req: FormApi.Request, env: FormApi.Env)
    ensures var reply := ReplyOf(FormApi.Step(kind, ext, store, cached, req, env).response);
            reply == Resolved(201) || reply == Rejected
  {
  }

  /** The JSON body react-hook-form posts: every registered field, as the
      string its input holds -- "" for one never typed into -- and no other. */
  function ToBody(kind: FormKind, v: FormValues): (b: FormApi.Body)
    ensures b.Keys == Registered(kind)
    ensures forall k | k in b :: b[k] == FormApi.Str(Value(v, k))
  {
    map k | k in Registered(kind) :: FormApi.Str(Value(v, k))
  }

  /** The inquiry modal lets an empty message through (it has no rule), and
      posts it as "" -- whether it was cleared or never touched -- but the
      inquiry endpoint's joi `string()` refuses an empty string: such an
      inquiry is answered 400. */
  lemma EmptyInquiryMessageRefused(ext: FormApi.Externals, v: FormValues)
    requires ClientValid(InquiryForm, v)
    requires Value(v, "message") == ""
    ensures !FormApi.Validates(FormApi.Inquiry, ext, ToBody(InquiryForm, v))
  {
    assert FormApi.Get(ToBody(InquiryForm, v), "message") == FormApi.Str("");
  }

  /** An inquiry the modal lets through, with an address joi accepts,
      passes the endpoint's validation exactly when its message is not empty. */
  lemma InquiryPassesIffMessage(ext: FormApi.Externals, v: FormValues)
    requires ClientValid(InquiryForm, v) && ext.isEmail(Value(v, "email"))
    ensures FormApi.Validates(FormApi.Inquiry, ext, ToBody(InquiryForm, v)) <==> Value(v, "message") != ""
  {
    var b := ToBody(InquiryForm, v);
    assert FormApi.Get(b, "name") == FormApi.Str(Value(v, "name"));
    assert FormApi.Get(b, "phone") == FormApi.Str(Value(v, "phone"));
    assert FormApi.Get(b, "email") == FormApi.Str(Value(v, "email"));
    assert FormApi.Get(b, "message") == FormApi.Str(Value(v, "message"));
  }

  class Form {
    const kind: FormKind
    var values: FormValues
    var loading: bool
    /** The redux store the layout reads `isOpen` from. */
    var modal: ModalReducer.ModalState
    var alerts: seq<Alert>

    constructor (kind: FormKind, modal: ModalReducer.ModalState)
      ensures this.kind == kind && this.modal == modal
      ensures values == map[] && !loading && alerts == []
    {
      this.kind := kind;
      this.modal := modal;
      values := map[];
      loading := false;
      alerts := [];
    }

    /** Typing into a field; a disabled input ignores it. */
    method Type(name: string, text: string)
      modifies this`values
      ensures values == if old(loading) then old(values) else old(values)[name := text]
    {
      if !loading {
        values := values[name := text];
      }
    }

    /** `handleSubmit(onSubmit)` up to the request: invalid values stop at
        react-hook-form, a submission while `loading` returns at once, and
        otherwise `loading` is set and every registered field is posted. */
    method Submit() returns (posted: Option<FormApi.Body>)
      modifies this`loading
      ensures old(loading) || !ClientValid(kind, values) ==> posted == None && loading == old(loading)
      ensures !old(loading) && ClientValid(kind, values) ==> posted == Some(ToBody(kind, values)) && loading
    {
      if !ClientValid(kind, values) {
        return None;
      }
      if loading {
        return None;
      }
      loading := true;
      posted := Some(ToBody(kind, values));
    }

    /** From the settled request to the `finally`: a 201 shows the success
        alert, resets the form and, in the modal, dispatches "close"; a
        rejection shows the error alert and leaves the fields and the modal
        as they were; `loading` is cleared in every case. */
    method Complete(reply: Reply)
      requires loading
      modifies this`loading, this`values, this`modal, this`alerts
      ensures !loading
      ensures values == if reply == Resolved(201) then map[] else old(values)
      ensures modal == if kind == InquiryForm && reply == Resolved(201)
                       then ModalReducer.Reduce(old(modal), ModalReducer.Action("close"))
                       else old(modal)
      ensures alerts == old(alerts) + if reply == Resolved(201) then [SuccessAlert]
                                      else if reply.Rejected? then [ErrorAlert] else []
      ensures kind == InquiryForm && reply == Resolved(201) ==> !ModalRendered(modal)
    {
      match reply {
        case Resolved(status) =>
          if status == 201 {
            alerts := alerts + [SuccessAlert];
            values := map[];
            if kind == InquiryForm {
              modal := ModalReducer.Reduce(modal, ModalReducer.Action("close"));
            }
          }
        case Rejected =>
          alerts := alerts + [ErrorAlert];
      }
      loading := false;
    }

    /** The modal's X button: it dispatches "close" unless it is disabled
        by `loading` or the modal is not shown at all. */
    method CloseClicked()
      requires kind == InquiryForm
      modifies this`modal
      ensures modal == if old(loading) || !ModalRendered(old(modal)) then old(modal)
                       else ModalReducer.Reduce(old(modal), ModalReducer.Action("close"))
      ensures !old(loading) ==> !ModalRendered(modal)
    {
      if ModalRendered(modal) && Enabled(loading) {
        modal := ModalReducer.Reduce(modal, ModalReducer.Action("close"));
      }
    }
  }
}
