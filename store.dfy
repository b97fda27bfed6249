/** The process-wide transaction store: the draft of the transaction being
    entered, three status flags, and the submission flow that turns the draft
    into a wire payload, sends it once and maps the outcome onto the flags
    (src/store/useTransactionStore.ts). */
module Store {
  import opened Helpers

  // ---------------------------------------------------------------------------
  // The draft
  // ---------------------------------------------------------------------------

  /** The data fields of the store. `cvv` and `fechaExpiracion` are keys that
      `setField` accepts but that the initial state does not hold. */
  datatype Draft = Draft(
    tipo: TransactionType,
    marca: CardBrand,
    modalidad: TransactionMode,
    monto: int,                 // in cents
    moneda: Currency,
    numeroTarjeta: string,
    nombreTitular: string,
    plazo: Option<int>,
    recurrente: bool,
    frecuenciaDias: Option<int>,
    cvv: Option<string>,
    fechaExpiracion: Option<string>)
  {
    /** The value the draft holds for the field that `f` names. */
    function Get(f: Field): (r: Field)
      ensures r.Key() == f.Key()
    {
      match f
      case Tipo(_) => Tipo(tipo)
      case Marca(_) => Marca(marca)
      case Modalidad(_) => Modalidad(modalidad)
      case Monto(_) => Monto(monto)
      case Moneda(_) => Moneda(moneda)
      case NumeroTarjeta(_) => NumeroTarjeta(numeroTarjeta)
      case NombreTitular(_) => NombreTitular(nombreTitular)
      case Plazo(_) => Plazo(plazo)
      case Recurrente(_) => Recurrente(recurrente)
      case FrecuenciaDias(_) => FrecuenciaDias(frecuenciaDias)
      case Cvv(_) => Cvv(cvv)
      case FechaExpiracion(_) => FechaExpiracion(fechaExpiracion)
    }

    /** The draft with one field replaced: afterwards that field holds the new
        value and every other field holds what it held before. */
    function With(f: Field): (r: Draft)
      ensures r.Get(f) == f
      ensures forall g: Field :: g.Key() != f.Key() ==> r.Get(g) == Get(g)
    {
      match f
      case Tipo(v) => this.(tipo := v)
      case Marca(v) => this.(marca := v)
      case Modalidad(v) => this.(modalidad := v)
      case Monto(v) => this.(monto := v)
      case Moneda(v) => this.(moneda := v)
      case NumeroTarjeta(v) => this.(numeroTarjeta := v)
      case NombreTitular(v) => this.(nombreTitular := v)
      case Plazo(v) => this.(plazo := v)
      case Recurrente(v) => this.(recurrente := v)
      case FrecuenciaDias(v) => this.(frecuenciaDias := v)
      case Cvv(v) => this.(cvv := v)
      case FechaExpiracion(v) => this.(fechaExpiracion := v)
    }
  }

  /** A key of the transaction record with the value `setField` stores under it. */
  datatype Field =
    | Tipo(tipo: TransactionType)
    | Marca(marca: CardBrand)
    | Modalidad(modalidad: TransactionMode)
    | Monto(monto: int)
    | Moneda(moneda: Currency)
    | NumeroTarjeta(numeroTarjeta: string)
    | NombreTitular(nombreTitular: string)
    | Plazo(plazo: Option<int>)
    | Recurrente(recurrente: bool)
    | FrecuenciaDias(frecuenciaDias: Option<int>)
    | Cvv(cvv: Option<string>)
    | FechaExpiracion(fechaExpiracion: Option<string>)
  {
    /** Which key the field is, regardless of its value. */
    function Key(): nat {
      match this
      case Tipo(_) => 0
      case Marca(_) => 1
      case Modalidad(_) => 2
      case Monto(_) => 3
      case Moneda(_) => 4
      case NumeroTarjeta(_) => 5
      case NombreTitular(_) => 6
      case Plazo(_) => 7
      case Recurrente(_) => 8
      case FrecuenciaDias(_) => 9
      case Cvv(_) => 10
      case FechaExpiracion(_) => 11
    }
  }

  /** The data part of `initialState`; it holds no `cvv` and no `fechaExpiracion`. */
  const InitialDraft := Draft(PAG, Unknown, SIM, 0, USD, "", "", None, false, None, None, None)

  /** What `resetForm` leaves: every key of the initial state restored, and the
      keys it does not list (`cvv`, `fechaExpiracion`) kept as they were. */
  function ResetDraft(d: Draft): (r: Draft)
    ensures forall f: Field :: f.Key() < 10 ==> r.Get(f) == InitialDraft.Get(f)
    ensures r.cvv == d.cvv && r.fechaExpiracion == d.fechaExpiracion
  {
    InitialDraft.(cvv := d.cvv, fechaExpiracion := d.fechaExpiracion)
  }

  // ---------------------------------------------------------------------------
  // The wire payload
  // ---------------------------------------------------------------------------

  /** The JSON object posted to the gateway. The optional keys are absent
      (`None`) unless the modality adds them; there is no CVV and no expiry. */
  datatype Payload = Payload(
    tipo: TransactionType,
    marca: CardBrand,
    modalidad: TransactionMode,
    monto: int,
    moneda: Currency,
    numeroTarjeta: string,
    nombreTitular: string,
    plazo: Option<int>,
    recurrente: Option<bool>,
    frecuenciaDias: Option<int>)

  /** JavaScript truthiness of an optional number: defined and not zero. */
  predicate Truthy(n: Option<int>) { n.Some? && n.value != 0 }

  const DefaultFrecuenciaDias := 30

  /** The payload built from a draft. The wire brand is the draft's, VISA
      standing in for an unknown one; the wire modality is REC for a recurring
      draft and SIM for any other, deferred included; `plazo` goes out only for
      a deferred draft with a truthy `plazo`; a recurring draft adds
      `recurrente` and a truthy `frecuenciaDias` (30 by default). */
  function PayloadOf(d: Draft): (p: Payload)
    ensures p.tipo == PAG
    ensures p.marca != Unknown && (d.marca != Unknown ==> p.marca == d.marca)
    ensures d.marca == Unknown ==> p.marca == VISA
    ensures p.modalidad == REC <==> d.modalidad == REC
    ensures p.modalidad != REC ==> p.modalidad == SIM
    ensures p.monto == d.monto && p.moneda == d.moneda && p.nombreTitular == d.nombreTitular
    ensures AllDigits(p.numeroTarjeta) && p.numeroTarjeta == Digits(d.numeroTarjeta)
    ensures p.plazo.Some? <==> d.modalidad == DIF && Truthy(d.plazo)
    ensures p.plazo.Some? ==> p.plazo == d.plazo
    ensures p.recurrente.Some? <==> d.modalidad == REC
    ensures p.recurrente.Some? ==> p.recurrente.value
    ensures p.frecuenciaDias.Some? <==> d.modalidad == REC
    ensures p.frecuenciaDias.Some? ==>
      Truthy(p.frecuenciaDias) &&
      (Truthy(d.frecuenciaDias) ==> p.frecuenciaDias == d.frecuenciaDias) &&
      (!Truthy(d.frecuenciaDias) ==> p.frecuenciaDias.value == DefaultFrecuenciaDias)
    ensures !(p.plazo.Some? && p.frecuenciaDias.Some?)
  {
    Payload(
      PAG,
      if d.marca == Unknown then VISA else d.marca,
      if d.modalidad == REC then REC else SIM,
      d.monto, d.moneda, Digits(d.numeroTarjeta), d.nombreTitular,
      if d.modalidad == DIF && Truthy(d.plazo) then d.plazo else None,
      if d.modalidad == REC then Some(true) else None,
      if d.modalidad != REC then None
      else if Truthy(d.frecuenciaDias) then d.frecuenciaDias else Some(DefaultFrecuenciaDias))
  }

  // ---------------------------------------------------------------------------
  // Failures and their message
  // ---------------------------------------------------------------------------

  /** The body of an HTTP error response: nothing usable (null, undefined or
      another falsy value), a plain string, or an object whose `message` key
      is absent or falsy (`None`, or `Some("")`) or a string. */
  datatype Body = NoData | Text(text: string) | Json(message: Option<string>)

  datatype Response = Response(status: int, data: Body)

  /** What `axios.post` can throw: an axios error (with its `code`, its
      `message` and possibly the server's response), another `Error`, or a
      thrown value that is not an `Error` at all. */
  datatype Failure =
    | AxiosError(code: Option<string>, message: string, response: Option<Response>)
    | OtherError(message: string)
    | NotAnError

  /** The outcome of the one HTTP call: axios resolves on a 2xx response and
      throws otherwise. */
  datatype HttpOutcome = Resolved | Thrown(failure: Failure)

  const UnknownMsg := "Error desconocido al procesar la transacción"
  const ConnectivityMsg := "No se pudo conectar con el servidor. Verifique que el servicio esté en ejecución."
  const ValidationDetailMsg := "Datos inválidos: verifique número de tarjeta (16 dígitos) y datos del titular"
  const InvalidDataMsg := "Datos inválidos para la transacción"
  const NotFoundMsg := "Terminal POS no encontrado"
  const GatewayMsg := "Error de comunicación con el Payment Gateway"

  /** `s.includes(t)`: `t` occurs in `s` at some position. */
  function Contains(s: string, t: string): bool
    decreases |s|
  {
    IsPrefix(t, s) || (s != [] && Contains(s[1..], t))
  }

  /** The connectivity test: code ERR_NETWORK or ECONNREFUSED, or a message
      that mentions "Network Error". */
  predicate IsNetworkError(f: Failure) {
    f.AxiosError? &&
    (f.code == Some("ERR_NETWORK") || f.code == Some("ECONNREFUSED") || Contains(f.message, "Network Error"))
  }

  /** The message a response body carries, if any: the body itself when it is
      a string (even an empty one), its `message` when that is truthy. */
  function BodyMessage(data: Body): Option<string> {
    match data
    case Text(t) => Some(t)
    case Json(Some(m)) => if m != "" then Some(m) else None
    case _ => None
  }

  /** The user-facing message for a failure, as a decision list read from the
      top: connectivity first; then, with a response, the server's own message
      and, lacking one, the status; without a response the error's own
      message; a non-axios error's message; otherwise the generic text. */
  function FailureMessage(f: Failure): (m: string)
    ensures m in CarriedTexts(f) || m in {ConnectivityMsg, InvalidDataMsg, NotFoundMsg, GatewayMsg, UnknownMsg}
  {
    if IsNetworkError(f) then ConnectivityMsg
    else match f
      case AxiosError(_, message, None) => message
      case AxiosError(_, _, Some(resp)) =>
        if BodyMessage(resp.data).Some? then BodyMessage(resp.data).value
        else if resp.status == 400 then InvalidDataMsg
        else if resp.status == 404 then NotFoundMsg
        else if resp.status == 500 then GatewayMsg
        else UnknownMsg
      case OtherError(message) => message
      case NotAnError => UnknownMsg
  }

  /** Every string a failure carries: the error's message and the body's text
      or `message`. */
  function CarriedTexts(f: Failure): set<string> {
    match f
    case AxiosError(_, m, None) => {m}
    case AxiosError(_, m, Some(resp)) =>
      {m} + (match resp.data case Text(t) => {t} case Json(Some(bm)) => {bm} case _ => {})
    case OtherError(m) => {m}
    case NotAnError => {}
  }

  /** The chain of the catch block, reassigning the message step by step: the
      status picks a message first and a body message then overrides it. It
      agrees with the decision list `FailureMessage`. */
  method ErrorMessage(f: Failure) returns (msg: string)
    ensures msg == FailureMessage(f)
  {
    msg := UnknownMsg;
    if f.AxiosError? {
      if f.code == Some("ERR_NETWORK") || f.code == Some("ECONNREFUSED") || Contains(f.message, "Network Error") {
        msg := ConnectivityMsg;
      } else if f.response.Some? {
        var resp := f.response.value;
        if resp.status == 400 {
          if resp.data.Text? && resp.data.text != "" && Contains(resp.data.text, "Validation failed") {
            msg := ValidationDetailMsg;
          } else {
            msg := InvalidDataMsg;
          }
        } else if resp.status == 404 {
          msg := NotFoundMsg;
        } else if resp.status == 500 {
          msg := GatewayMsg;
        }
        if resp.data.Text? {
          msg := resp.data.text;
        } else if resp.data.Json? && resp.data.message.Some? && resp.data.message.value != "" {
          msg := resp.data.message.value;
        }
      } else {
        msg := f.message;
      }
    } else if f.OtherError? {
      msg := f.message;
    }
  }

  /** A connectivity failure gets the connectivity message whatever response
      and body it carries: the response is never consulted. */
  lemma NetworkIgnoresResponse(code: Option<string>, message: string, r1: Option<Response>, r2: Option<Response>)
    requires IsNetworkError(AxiosError(code, message, r1))
    ensures FailureMessage(AxiosError(code, message, r1)) == ConnectivityMsg
    ensures FailureMessage(AxiosError(code, message, r2)) == ConnectivityMsg
  {
  }

  /** The detailed validation message is only ever shown when some string the
      failure carries is that very text: the branch that picks it requires a
      string body, and a string body always overrides it. */
  lemma ValidationDetailNeverChosen(f: Failure)
    ensures FailureMessage(f) == ValidationDetailMsg ==> ValidationDetailMsg in CarriedTexts(f)
  {
    assert ValidationDetailMsg != ConnectivityMsg && ValidationDetailMsg != InvalidDataMsg;
    assert ValidationDetailMsg != NotFoundMsg && ValidationDetailMsg != GatewayMsg && ValidationDetailMsg != UnknownMsg;
  }

  /** With a response and no usable body message, the status alone decides:
      400, 404 and 500 have their own messages and any other status gets the
      generic text. A body message, whenever present, wins over the status. */
  lemma StatusMessages(f: Failure)
    requires f.AxiosError? && !IsNetworkError(f) && f.response.Some?
    ensures var resp := f.response.value; var m := FailureMessage(f);
      && (BodyMessage(resp.data).Some? ==> m == BodyMessage(resp.data).value)
      && (BodyMessage(resp.data).None? ==>
            (m == InvalidDataMsg <==> resp.status == 400) &&
            (m == NotFoundMsg <==> resp.status == 404) &&
            (m == GatewayMsg <==> resp.status == 500) &&
            (m == UnknownMsg <==> resp.status !in {400, 404, 500}))
  {
  }

  // ---------------------------------------------------------------------------
  // The store
  // ---------------------------------------------------------------------------

  /** A pending `setTimeout` callback of the submission flow. */
  datatype Timer = SuccessReset | FailureReset

  class TransactionStore {
    var draft: Draft
    var isLoading: bool
    var error: Option<string>
    var success: bool

    /** Callbacks scheduled by settled submissions and not yet run. */
    var pending: seq<Timer>
    /** Submissions whose HTTP call has been made and has not yet settled. */
    var inFlight: nat
    /** Every payload posted so far, in order. */
    ghost var sent: seq<Payload>

    /** The status flags never claim "loading" and "succeeded" at once, and
        "loading" is only shown while a call is outstanding. */
    ghost predicate Valid()
      reads this
    {
      !(isLoading && success) && (isLoading ==> inFlight > 0)
    }

    /** `initialState` */
    constructor ()
      ensures Valid()
      ensures draft == InitialDraft && !isLoading && error == None && !success
      ensures pending == [] && inFlight == 0 && sent == []
    {
      draft := InitialDraft;
      isLoading, error, success := false, None, false;
      pending, inFlight, sent := [], 0, [];
    }

    /** `setField(field, value)`: one field changes, nothing else does. */
    method SetField(f: Field)
      requires Valid()
      modifies this
      ensures Valid()
      ensures draft == old(draft).With(f)
      ensures isLoading == old(isLoading) && error == old(error) && success == old(success)
      ensures pending == old(pending) && inFlight == old(inFlight) && sent == old(sent)
    {
      draft := draft.With(f);
    }

    /** `resetForm()`: every key of the initial state and every status flag
        goes back to its initial value. */
    method ResetForm()
      modifies this
      ensures Valid()
      ensures draft == ResetDraft(old(draft))
      ensures !isLoading && error == None && !success
      ensures pending == old(pending) && inFlight == old(inFlight) && sent == old(sent)
    {
      draft := ResetDraft(draft);
      isLoading, error, success := false, None, false;
    }

    /** The synchronous part of `processTransaction` that builds the payload:
        it posts what `PayloadOf` describes. */
    method BuildPayload() returns (p: Payload)
      ensures p == PayloadOf(draft)
    {
      var backendModalidad := SIM;
      if draft.modalidad == REC {
        backendModalidad := REC;
      } else {
        backendModalidad := SIM;
      }
      p := Payload(PAG, if draft.marca == Unknown then VISA else draft.marca, backendModalidad,
                   draft.monto, draft.moneda, Digits(draft.numeroTarjeta), draft.nombreTitular,
                   None, None, None);
      if draft.modalidad == DIF && Truthy(draft.plazo) {
        p := p.(plazo := draft.plazo);
      }
      if draft.modalidad == REC {
        p := p.(recurrente := Some(true),
                frecuenciaDias := Some(if Truthy(draft.frecuenciaDias) then draft.frecuenciaDias.value else DefaultFrecuenciaDias));
      }
    }

    /** The synchronous part of `processTransaction`, up to the `await`: the
        flags switch to "loading" and exactly one payload is posted. */
    method BeginSubmit() returns (p: Payload)
      requires Valid()
      modifies this
      ensures Valid()
      ensures isLoading && error == None && !success
      ensures draft == old(draft) && pending == old(pending)
      ensures inFlight == old(inFlight) + 1 && sent == old(sent) + [p]
      ensures p == PayloadOf(old(draft))
    {
      isLoading, error, success := true, None, false;
      p := BuildPayload();
      inFlight := inFlight + 1;
      sent := sent + [p];
    }

    /** The rest of `processTransaction`, once the call settles: success or
        the mapped failure message, "loading" off, and one reset timer. */
    method Settle(outcome: HttpOutcome)
      requires Valid() && inFlight > 0
      modifies this
      ensures Valid()
      ensures !isLoading && success == outcome.Resolved?
      ensures outcome.Resolved? ==> error == old(error) && pending == old(pending) + [SuccessReset]
      ensures outcome.Thrown? ==>
        error == Some(FailureMessage(outcome.failure)) && pending == old(pending) + [FailureReset]
      ensures draft == old(draft) && inFlight == old(inFlight) - 1 && sent == old(sent)
    {
      inFlight := inFlight - 1;
      if outcome.Resolved? {
        success, isLoading := true, false;
        pending := pending + [SuccessReset];
      } else {
        var msg := ErrorMessage(outcome.failure);
        error, isLoading, success := Some(msg), false, false;
        pending := pending + [FailureReset];
      }
    }

    /** One scheduled callback runs: it clears its own flag and calls
        `resetForm`, whatever submission may be under way meanwhile. */
    method FireTimer(i: nat)
      requires Valid() && i < |pending|
      modifies this
      ensures Valid()
      ensures pending == old(pending[..i] + pending[i + 1..])
      ensures draft == ResetDraft(old(draft))
      ensures !isLoading && error == None && !success
      ensures inFlight == old(inFlight) && sent == old(sent)
    {
      if pending[i] == SuccessReset {
        success := false;
      } else {
        error := None;
      }
      pending := pending[..i] + pending[i + 1..];
      ResetForm();
    }
  }
}
