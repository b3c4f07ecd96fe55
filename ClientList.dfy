/** The client screen: the registry it shares with the dashboard, the client
    open in the details view, and the view mode. Each handler replaces the
    list and, when the open client is the one concerned, the open client too.
    Dialog answers (the edit target, the form, the confirmation, the amount)
    and the random id suffix are parameters. */
module ClientList {
  import opened Wrappers
  import opened CivilDate
  import opened Clients

  datatype ViewMode = ListView | DetailsView

  /** What the renew button did. */
  datatype RenewOutcome =
    | NothingSelected            // no client open: the handler returns at once
    | Renewed(expiry: string)    // the new expiry date written to the client
    | RenewFailed(error: DateError)

  class ClientListState {
    var clients: seq<Client>
    var selected: Option<Client>
    var viewMode: ViewMode

    constructor (clients: seq<Client>)
      ensures this.clients == clients && selected == None && viewMode == ListView
    {
      this.clients := clients;
      selected := None;
      viewMode := ListView;
    }

    /** Opens a client in the details view. */
    method ViewClient(c: Client)
      modifies this
      ensures clients == old(clients) && selected == Some(c) && viewMode == DetailsView
    {
      selected := Some(c);
      viewMode := DetailsView;
    }

    /** Saves the add/edit dialog: an edit merges the form into the clients
        with the edited id (and the open client, if it is that one); an add
        prepends a new client whose id starts with the list length plus one. */
    method Submit(editing: Option<Client>, form: ClientForm, suffix: string)
      modifies this
      ensures editing.Some? ==> clients == EditClient(old(clients), editing.value.id, form)
      ensures editing.Some? && old(selected).Some? && old(selected).value.id == editing.value.id ==>
                selected == Some(ApplyForm(old(selected).value, form))
      ensures editing.Some? && !(old(selected).Some? && old(selected).value.id == editing.value.id) ==>
                selected == old(selected)
      ensures editing.None? ==> clients == [NewClient(old(clients), form, suffix)] + old(clients)
      ensures editing.None? ==> selected == old(selected)
      ensures viewMode == old(viewMode)
    {
      if editing.Some? {
        SaveEdit(editing.value.id, form);
      } else {
        AddClient(form, suffix);
      }
    }

    /** The edit half of the dialog. */
    method SaveEdit(id: string, form: ClientForm)
      modifies this
      ensures clients == EditClient(old(clients), id, form)
      ensures old(selected).Some? && old(selected).value.id == id ==> selected == Some(ApplyForm(old(selected).value, form))
      ensures !(old(selected).Some? && old(selected).value.id == id) ==> selected == old(selected)
      ensures viewMode == old(viewMode)
    {
      clients := EditClient(clients, id, form);
      if selected.Some? && selected.value.id == id {
        selected := Some(ApplyForm(selected.value, form));
      }
    }

    /** The add half of the dialog. */
    method AddClient(form: ClientForm, suffix: string)
      modifies this
      ensures clients == [NewClient(old(clients), form, suffix)] + old(clients)
      ensures selected == old(selected) && viewMode == old(viewMode)
    {
      clients := [NewClient(clients, form, suffix)] + clients;
    }

    /** Gives the clients with `id`, and the open client if it has `id`, the status `st`. */
    method SetStatusOf(id: string, st: Status)
      modifies this
      ensures clients == SetStatus(old(clients), id, st)
      ensures old(selected).Some? && old(selected).value.id == id ==> selected == Some(old(selected).value.(status := st))
      ensures !(old(selected).Some? && old(selected).value.id == id) ==> selected == old(selected)
      ensures viewMode == old(viewMode)
    {
      clients := SetStatus(clients, id, st);
      if selected.Some? && selected.value.id == id {
        selected := Some(selected.value.(status := st));
      }
    }

    /** The enable/disable button, given the status the screen shows for the client. */
    method ToggleStatus(id: string, current: Status)
      modifies this
      ensures clients == SetStatus(old(clients), id, ToggledStatus(current))
      ensures old(selected).Some? && old(selected).value.id == id ==>
                selected == Some(old(selected).value.(status := ToggledStatus(current)))
      ensures !(old(selected).Some? && old(selected).value.id == id) ==> selected == old(selected)
      ensures viewMode == old(viewMode)
    {
      SetStatusOf(id, ToggledStatus(current));
    }

    /** The suspend button, given the status the screen shows for the client. */
    method SuspendToggle(id: string, current: Status)
      modifies this
      ensures clients == SetStatus(old(clients), id, SuspendToggled(current))
      ensures old(selected).Some? && old(selected).value.id == id ==>
                selected == Some(old(selected).value.(status := SuspendToggled(current)))
      ensures !(old(selected).Some? && old(selected).value.id == id) ==> selected == old(selected)
      ensures viewMode == old(viewMode)
    {
      SetStatusOf(id, SuspendToggled(current));
    }

    /** Deletes the clients with `id` once the user confirms, and leaves the details view. */
    method Delete(id: string, confirmed: bool)
      modifies this
      ensures confirmed ==> clients == RemoveClient(old(clients), id) && viewMode == ListView
      ensures !confirmed ==> clients == old(clients) && viewMode == old(viewMode)
      ensures selected == old(selected)
    {
      if confirmed {
        clients := RemoveClient(clients, id);
        if viewMode == DetailsView {
          viewMode := ListView;
        }
      }
    }

    /** Extends the open client by 30 days from its own expiry date (not from
        today) and makes it Active, in the list and in the details view. */
    method Renew() returns (r: RenewOutcome)
      modifies this
      ensures old(selected).None? ==> r == NothingSelected
      ensures old(selected).Some? ==>
                match ShiftIsoDate(old(selected).value.expiryDate, RenewalPeriod)
                case Ok(e) => r == Renewed(e)
                case Err(x) => r == RenewFailed(x)
      ensures r.Renewed? ==> clients == RenewClient(old(clients), old(selected).value.id, r.expiry)
      ensures r.Renewed? ==> selected == Some(RenewTo(r.expiry)(old(selected).value))
      ensures !r.Renewed? ==> clients == old(clients) && selected == old(selected)
      ensures viewMode == old(viewMode)
    {
      if selected.None? {
        return NothingSelected;
      }
      var c := selected.value;
      var shifted := ShiftIsoDate(c.expiryDate, RenewalPeriod);
      if shifted.Err? {
        r := RenewFailed(shifted.error);
      } else {
        var e := shifted.value;
        clients := RenewClient(clients, c.id, e);
        selected := Some(RenewTo(e)(c));
        r := Renewed(e);
      }
    }

    /** Records a payment (negative for a correction) for the open client. */
    method Collect(amount: int)
      modifies this
      ensures old(selected).None? ==> clients == old(clients) && selected == old(selected)
      ensures old(selected).Some? ==> clients == CollectPayment(old(clients), old(selected).value.id, amount)
      ensures old(selected).Some? ==> selected == Some(old(selected).value.(balance := old(selected).value.balance + amount))
      ensures viewMode == old(viewMode)
    {
      if selected.Some? {
        var c := selected.value;
        clients := CollectPayment(clients, c.id, amount);
        selected := Some(c.(balance := c.balance + amount));
      }
    }
  }
}
