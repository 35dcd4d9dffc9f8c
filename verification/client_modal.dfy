/** The client editor (`src/components/modals/ClientModal.tsx`): its form,
    loading a client into it, and what a submit dispatches. The clock reading
    of a creation is a parameter. */
module ClientModal {
  import opened Wrappers
  import opened Types
  import opened Patches
  import opened AppContext

  datatype ClientForm = ClientForm(
    name: string,
    phone: string,
    category: Category,
    notes: string,
    campaignSource: string)

  /** The form of a new client. */
  const BlankForm := ClientForm("", "", NotBought, "", "")

  /** The last message a client created by hand starts with. */
  const ManualEntry := "Cliente adicionado manualmente"

  /** The form filled from an existing client: missing notes and campaign
      source show as empty text. */
  function LoadClient(c: Client): (r: ClientForm)
    ensures r.name == c.name && r.phone == c.phone && r.category == c.category
    ensures c.notes.None? ==> r.notes == ""
    ensures c.notes.Some? ==> r.notes == c.notes.value
    ensures c.campaignSource.None? ==> r.campaignSource == ""
    ensures c.campaignSource.Some? ==> r.campaignSource == c.campaignSource.value
  {
    ClientForm(c.name, c.phone, c.category, c.notes.GetOr(""), c.campaignSource.GetOr(""))
  }

  /** What a submit dispatches: a new client for `addClient` (which then sets
      its id), or an update of the edited one. */
  datatype Submission = Create(client: Client) | Change(id: string, patch: ClientPatch)

  /** `handleSubmit`: an edited client is patched with the five form fields;
      otherwise a new active client is created at `now`. */
  function Submit(form: ClientForm, editing: Option<Client>, now: Timestamp): (r: Submission)
    ensures r.Change? <==> editing.Some?
    ensures r.Change? ==> r.id == editing.value.id
    ensures r.Create? ==> r.client.status == Active && r.client.lastMessage == ManualEntry && r.client.lastActivity == now
  {
    if editing.Some? then
      Change(editing.value.id,
             ClientPatch(None, Some(form.name), Some(form.phone), Some(form.category), None, None, None,
                         Some(Some(form.campaignSource)), Some(Some(form.notes))))
    else
      Create(Client("", form.name, form.phone, form.category, ManualEntry, now, Active,
                    Some(form.campaignSource), Some(form.notes)))
  }

  /** Hands a submission to the store; `newId` is the id a creation draws. */
  function Dispatch(s: Store, sub: Submission, newId: string): Store {
    match sub
    case Create(c) => AddClient(s, c, newId)
    case Change(id, p) => UpdateClient(s, id, p)
  }

  /** An edit changes the five form fields and nothing else: the id, status,
      last message and last activity stay. */
  lemma EditTouchesFormFieldsOnly(form: ClientForm, c: Client, now: Timestamp)
    ensures var sub := Submit(form, Some(c), now);
            sub.Change? && sub.patch.ApplyTo(c)
              == c.(name := form.name, phone := form.phone, category := form.category,
                    notes := Some(form.notes), campaignSource := Some(form.campaignSource))
  {
  }

  /** Saving a client without touching the form keeps it, except that a
      missing note or campaign source is stored as empty text. */
  lemma LoadThenSubmitKeepsClient(c: Client, now: Timestamp)
    ensures var sub := Submit(LoadClient(c), Some(c), now);
            sub.Change? && sub.patch.ApplyTo(c)
              == c.(notes := Some(c.notes.GetOr("")), campaignSource := Some(c.campaignSource.GetOr("")))
  {
  }

  /** Submitting a new client appends one client carrying the form's fields,
      active, with the manual-entry message, under the new id. */
  lemma SubmitNewClient(s: Store, form: ClientForm, now: Timestamp, newId: string)
    ensures var r := Dispatch(s, Submit(form, None, now), newId);
            r.clients == s.clients + [Client(newId, form.name, form.phone, form.category, ManualEntry, now,
                                             Active, Some(form.campaignSource), Some(form.notes))]
  {
  }
}
