/** The "Create Order" form behind the bottom navigation bar: a guest
    counter bounded to 0..6, a name and a phone, and the guarded action
    that starts a customer session. */
module BottomNav {
  import opened Common
  import opened CustomerSlice

  const MaxGuests: int := 6

  /** The create button is disabled unless name, phone and at least one
      guest are given. */
  predicate CreateDisabled(name: string, phone: string, guestCount: int)
  {
    name == "" || phone == "" || guestCount == 0
  }

  class NewOrderForm {
    var isModalOpen: bool
    var guestCount: int
    var name: string
    var phone: string

    ghost predicate Valid()
      reads this
    {
      0 <= guestCount <= MaxGuests
    }

    constructor ()
      ensures Valid() && !isModalOpen && guestCount == 0 && name == "" && phone == ""
    {
      isModalOpen := false;
      guestCount := 0;
      name := "";
      phone := "";
    }

    method OpenModal()
      modifies this
      ensures isModalOpen
      ensures guestCount == old(guestCount) && name == old(name) && phone == old(phone)
    {
      isModalOpen := true;
    }

    /** `closeModal()`: closes the form and clears it. */
    method CloseModal()
      modifies this
      ensures Valid() && !isModalOpen && name == "" && phone == "" && guestCount == 0
    {
      isModalOpen := false;
      name := "";
      phone := "";
      guestCount := 0;
    }

    /** The name field's `onChange`. */
    method SetName(value: string)
      modifies this
      ensures name == value
      ensures isModalOpen == old(isModalOpen) && guestCount == old(guestCount) && phone == old(phone)
    {
      name := value;
    }

    /** The phone field's `onChange`. */
    method SetPhone(value: string)
      modifies this
      ensures phone == value
      ensures isModalOpen == old(isModalOpen) && guestCount == old(guestCount) && name == old(name)
    {
      phone := value;
    }

    /** `increment()`: ignored at 6. */
    method Increment()
      requires Valid()
      modifies this
      ensures Valid()
      ensures guestCount == if old(guestCount) >= MaxGuests then old(guestCount) else old(guestCount) + 1
      ensures isModalOpen == old(isModalOpen) && name == old(name) && phone == old(phone)
    {
      if guestCount >= MaxGuests {
        return;
      }
      guestCount := guestCount + 1;
    }

    /** `decrement()`: ignored at 0. */
    method Decrement()
      requires Valid()
      modifies this
      ensures Valid()
      ensures guestCount == if old(guestCount) <= 0 then old(guestCount) else old(guestCount) - 1
      ensures isModalOpen == old(isModalOpen) && name == old(name) && phone == old(phone)
    {
      if guestCount <= 0 {
        return;
      }
      guestCount := guestCount - 1;
    }

    /** `handleCreateOrder()`, with the clock reading and the random guest
        number passed in. It does exactly what the create button allows: when
        the button is disabled nothing happens; otherwise the session is set
        from the form (the table left alone), the screen moves to the tables
        page and the form is cleared and closed. */
    method HandleCreateOrder(store: CustomerStore, now: nat, n: nat) returns (nav: Option<string>)
      requires Valid() && n < 1000
      modifies this, store
      ensures Valid()
      ensures CreateDisabled(old(name), old(phone), old(guestCount)) ==>
                nav == None && unchanged(this) && unchanged(store)
      ensures !CreateDisabled(old(name), old(phone), old(guestCount)) ==>
                && nav == Some("/tables")
                && store.Snapshot() == old(store.Snapshot()).(
                     orderId := OrderIdFor(now),
                     customerName := old(name),
                     customerPhone := old(phone),
                     guests := old(guestCount),
                     isAnonymous := IsAnonymousName(old(name)))
                && 1 <= store.guests <= MaxGuests
                && !isModalOpen && name == "" && phone == "" && guestCount == 0
    {
      if name == "" || phone == "" || guestCount == 0 {
        return None;
      }
      store.SetCustomer(name, phone, guestCount, now, n);
      nav := Some("/tables");
      CloseModal();
    }
  }
}
