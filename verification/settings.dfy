/** The user settings modal (js/systemasettings.js): the form is prefilled
    from the user's document with fallbacks, a save writes exactly the
    trimmed name and phone when both are non-blank, and a password reset
    needs a signed-in user with an e-mail address. */
module Settings {
  import opened Common
  import Menu

  const FieldsRequired := "Nome e Telefone são obrigatórios."
  const Saving := "Salvando alterações..."
  const SaveFailed := "Erro ao salvar. Tente novamente."
  const NoUserOrEmail := "Usuário não encontrado ou sem e-mail associado."

  /** The user `openUserSettingsModal` is given: its id and auth
      `displayName`. */
  datatype SettingsUser = SettingsUser(uid: string, displayName: Option<string>)

  /** The value of field `k` when it is present and not empty. */
  predicate Filled(d: Menu.Record, k: string) {
    k in d && Truthy(d[k])
  }

  /** The form's prefill from the `users` document, or, when there is none,
      from the auth record alone: the document's `name` wins over the auth
      `displayName`, its `phone` over its `whatsapp`, and an empty or
      missing value gives way to the next one, down to the empty text. */
  function Prefill(doc: Option<Menu.Record>, displayName: Option<string>): (r: (string, string))
    ensures doc.Some? && Filled(doc.value, "name") ==> r.0 == doc.value["name"]
    ensures (doc.None? || !Filled(doc.value, "name")) && displayName.Some? && Truthy(displayName.value) ==>
      r.0 == displayName.value
    ensures (doc.None? || !Filled(doc.value, "name")) && (displayName.None? || !Truthy(displayName.value)) ==>
      r.0 == ""
    ensures doc.None? ==> r.1 == ""
    ensures doc.Some? && Filled(doc.value, "phone") ==> r.1 == doc.value["phone"]
    ensures doc.Some? && !Filled(doc.value, "phone") && Filled(doc.value, "whatsapp") ==> r.1 == doc.value["whatsapp"]
    ensures doc.Some? && !Filled(doc.value, "phone") && !Filled(doc.value, "whatsapp") ==> r.1 == ""
  {
    match doc
    case None => (OptOr(displayName, ""), "")
    case Some(d) =>
      (OptOr(Menu.Field(d, "name"), OptOr(displayName, "")),
       OptOr(Menu.Field(d, "phone"), OptOr(Menu.Field(d, "whatsapp"), "")))
  }

  /** The update a save sends, or the feedback when one of the trimmed
      values is empty. */
  function SettingsUpdate(name: string, phone: string): (r: Result<Menu.Record, string>)
    ensures r.Err? <==> Trim(name) == "" || Trim(phone) == ""
    ensures r.Err? ==> r.error == FieldsRequired
    ensures r.Ok? ==> r.value.Keys == {"name", "phone"} && r.value["name"] == Trim(name) && r.value["phone"] == Trim(phone)
  {
    var newName, newPhone := Trim(name), Trim(phone);
    if newName == "" || newPhone == "" then Err(FieldsRequired)
    else Ok(map["name" := newName, "phone" := newPhone])
  }

  /** A save changes the name and the phone and nothing else: the role, the
      e-mail and every other field are kept. `updateDoc` overwrites the
      given fields as a spread does, so `Menu.MergeUser` is its effect. */
  lemma SaveKeepsOtherFields(doc: Menu.Record, name: string, phone: string)
    requires SettingsUpdate(name, phone).Ok?
    ensures var r := Menu.MergeUser(doc, SettingsUpdate(name, phone).value);
      r.Keys == doc.Keys + {"name", "phone"} &&
      forall k :: k in doc && k != "name" && k != "phone" ==> r[k] == doc[k]
  {
  }

  /** Saving the prefilled form of a document whose name and phone are
      already trimmed and non-empty writes them back unchanged. */
  lemma {:induction false} PrefillSaveRoundTrip(doc: Menu.Record, displayName: Option<string>)
    requires "name" in doc && "phone" in doc
    requires Trim(doc["name"]) == doc["name"] != "" && Trim(doc["phone"]) == doc["phone"] != ""
    ensures var p := Prefill(Some(doc), displayName);
      SettingsUpdate(p.0, p.1) == Ok(map["name" := doc["name"], "phone" := doc["phone"]])
  {
  }

  /** A seller document keeps its number in `whatsapp`: the prefill offers
      it as the phone, so the first save copies it into `phone`. */
  lemma {:induction false} WhatsappBecomesPhone(doc: Menu.Record, displayName: Option<string>)
    requires "phone" !in doc && "whatsapp" in doc && "name" in doc
    requires Trim(doc["name"]) == doc["name"] != "" && Trim(doc["whatsapp"]) == doc["whatsapp"] != ""
    ensures var p := Prefill(Some(doc), displayName);
      SettingsUpdate(p.0, p.1) == Ok(map["name" := doc["name"], "phone" := doc["whatsapp"]])
  {
    var p := Prefill(Some(doc), displayName);
    assert p == (doc["name"], doc["whatsapp"]);
    var u := SettingsUpdate(doc["name"], doc["whatsapp"]);
    assert u.Ok? && u.value == map["name" := doc["name"], "phone" := doc["whatsapp"]];
  }

  /** What a save did: nothing at all, feedback without a write, or a write
      of `update` to the document of `uid` (after which, when it succeeded,
      the modal is closed and `userDataUpdated` dispatched). */
  datatype SaveEffect = Ignored | Rejected | Wrote(uid: string, update: Menu.Record, succeeded: bool)

  class SettingsModal {
    /** The modal and both inputs exist. */
    const ready: bool
    var currentUserData: Option<SettingsUser>
    var nameValue: string
    var phoneValue: string
    var visible: bool
    /** The feedback line's text and whether it is shown as an error. */
    var feedback: string
    var feedbackError: bool

    constructor (ready: bool)
      ensures this.ready == ready && currentUserData.None? && !visible && feedback == ""
    {
      this.ready := ready;
      currentUserData, nameValue, phoneValue, visible := None, "", "", false;
      feedback, feedbackError := "", false;
    }

    /** `openUserSettingsModal`: the user is remembered before the read,
        even when the read fails; a read that ends prefills the form, clears
        the feedback and shows the modal; a failed read changes nothing
        else. */
    method Open(user: Option<SettingsUser>, read: Menu.DocRead)
      modifies this
      ensures !ready || user.None? ==>
        currentUserData == old(currentUserData) && nameValue == old(nameValue) &&
        phoneValue == old(phoneValue) && visible == old(visible) && feedback == old(feedback)
      ensures ready && user.Some? ==> currentUserData == user
      ensures ready && user.Some? && read.ReadError? ==>
        nameValue == old(nameValue) && phoneValue == old(phoneValue) && visible == old(visible) &&
        feedback == old(feedback)
      ensures ready && user.Some? && !read.ReadError? ==>
        visible && feedback == "" &&
        (nameValue, phoneValue) == Prefill(if read.Exists? then Some(read.data) else None, user.value.displayName)
    {
      if !ready || user.None? {
        return;
      }
      currentUserData := user;
      match read {
        case ReadError =>
          return;
        case Exists(d) =>
          var p := Prefill(Some(d), user.value.displayName);
          nameValue, phoneValue := p.0, p.1;
        case NotFound =>
          nameValue, phoneValue := OptOr(user.value.displayName, ""), "";
      }
      feedback, feedbackError := "", false;
      visible := true;
    }

    /** `handleSettingsUpdate`: without a remembered user nothing happens;
        blank fields give the error feedback and write nothing; otherwise
        exactly the trimmed name and phone are written to that user's
        document, a success closes the modal and a failure leaves it open
        with the error feedback. */
    method Save(writeOk: bool) returns (effect: SaveEffect)
      modifies this
      ensures currentUserData.None? ==> effect == Ignored && feedback == old(feedback)
      ensures currentUserData.Some? && old(SettingsUpdate(nameValue, phoneValue)).Err? ==>
        effect == Rejected && feedback == FieldsRequired && feedbackError
      ensures currentUserData.Some? && old(SettingsUpdate(nameValue, phoneValue)).Ok? ==>
        effect == Wrote(currentUserData.value.uid, old(SettingsUpdate(nameValue, phoneValue)).value, writeOk) &&
        feedback == (if writeOk then Saving else SaveFailed) && feedbackError == !writeOk
      ensures visible == (old(visible) && !(effect.Wrote? && writeOk))
      ensures currentUserData == old(currentUserData) && nameValue == old(nameValue) && phoneValue == old(phoneValue)
    {
      if currentUserData.None? {
        return Ignored;
      }
      var u := SettingsUpdate(nameValue, phoneValue);
      if u.Err? {
        feedback, feedbackError := FieldsRequired, true;
        return Rejected;
      }
      effect := Wrote(currentUserData.value.uid, u.value, writeOk);
      if writeOk {
        feedback, feedbackError := Saving, false;
        visible := false;
      } else {
        feedback, feedbackError := SaveFailed, true;
      }
    }
  }

  /** A save that writes always writes to the document of the user the
      modal was opened for, whatever the inputs hold. */
  method SaveAfterOpen(m: SettingsModal, user: SettingsUser, read: Menu.DocRead, writeOk: bool) returns (effect: SaveEffect)
    requires m.ready
    modifies m
    ensures effect != Ignored
    ensures effect.Wrote? ==> effect.uid == user.uid
  {
    m.Open(Some(user), read);
    effect := m.Save(writeOk);
  }

  const ResetSending := "Enviando e-mail de redefinição..."
  const ResetFailed := "Erro ao enviar e-mail."

  /** The signed-in auth user, with its e-mail address when it has one. */
  datatype AuthAccount = AuthAccount(email: Option<string>)

  /** What a reset request did: a refusal toast without a request, or a
      request to `to` with the feedback lines shown in the modal, in order. */
  datatype ResetEffect = ResetRefused(toast: string) | ResetRequested(to: string, feedback: seq<Feedback>)

  /** A line shown in the modal's feedback area, and whether it is styled
      as an error. */
  datatype Feedback = Feedback(text: string, isError: bool)

  /** `handlePasswordReset`: refused when no user is signed in or it has no
      e-mail; otherwise the modal first says the e-mail is being sent, the
      reset goes to that address, and the next feedback names it or reports
      the failure. */
  function HandlePasswordReset(user: Option<AuthAccount>, sent: bool): (r: ResetEffect)
    ensures r.ResetRefused? <==> user.None? || user.value.email.None? || !Truthy(user.value.email.value)
    ensures r.ResetRefused? ==> r.toast == NoUserOrEmail
    ensures r.ResetRequested? ==> r.to == user.value.email.value && Truthy(r.to)
    ensures r.ResetRequested? ==> |r.feedback| == 2 && r.feedback[0] == Feedback(ResetSending, false)
    ensures r.ResetRequested? && sent ==> r.feedback[1] == Feedback("E-mail enviado para " + r.to + ".", false)
    ensures r.ResetRequested? && !sent ==> r.feedback[1] == Feedback(ResetFailed, true)
  {
    if user.None? || user.value.email.None? || |user.value.email.value| == 0 then ResetRefused(NoUserOrEmail)
    else
      var email := user.value.email.value;
      var outcome := if sent then Feedback("E-mail enviado para " + email + ".", false) else Feedback(ResetFailed, true);
      ResetRequested(email, [Feedback(ResetSending, false), outcome])
  }
}
