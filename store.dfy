/** The global store: one object whose five fields hold the four slices, and one method per
    action that replaces its slice through the store's `set` and keeps the others. */
module Store {
  import opened AppState
  import Properties

  class AppStore {
    var user: User
    var theme: Theme
    var count: int
    var step: int
    var notifications: seq<string>

    /** All fields at once, for stating each action against `Apply`. */
    function Snapshot(): (r: State)
      reads this
    {
      State(user, theme, count, step, notifications)
    }

    constructor ()
      ensures user == User("", "", false)
      ensures theme == Theme(Light, "#3b82f6")
      ensures count == 0 && step == 1 && notifications == []
      ensures Snapshot() == Initial
    {
      user := LoggedOut;
      theme := DefaultTheme;
      count := 0;
      step := 1;
      notifications := [];
    }

    method Login(name: string, email: string)
      modifies this
      ensures user == User(name, email, true)
      ensures theme == old(theme) && count == old(count) && step == old(step)
      ensures notifications == old(notifications)
      ensures Snapshot() == Apply(old(Snapshot()), Action.Login(name, email))
    {
      user := User(name, email, true);
    }

    method Logout()
      modifies this
      ensures user == User("", "", false)
      ensures theme == old(theme) && count == old(count) && step == old(step)
      ensures notifications == old(notifications)
      ensures Snapshot() == Apply(old(Snapshot()), Action.Logout)
    {
      user := LoggedOut;
    }

    method UpdateName(name: string)
      modifies this
      ensures user.name == name
      ensures user.email == old(user.email) && user.isLoggedIn == old(user.isLoggedIn)
      ensures theme == old(theme) && count == old(count) && step == old(step)
      ensures notifications == old(notifications)
      ensures Snapshot() == Apply(old(Snapshot()), Action.UpdateName(name))
    {
      user := Renamed(user, name);
    }

    method ToggleTheme()
      modifies this
      ensures theme.mode == Flip(old(theme.mode)) && theme.primaryColor == old(theme.primaryColor)
      ensures user == old(user) && count == old(count) && step == old(step)
      ensures notifications == old(notifications)
      ensures Snapshot() == Apply(old(Snapshot()), Action.ToggleTheme)
    {
      theme := Toggled(theme);
    }

    method SetPrimaryColor(color: string)
      modifies this
      ensures theme.primaryColor == color && theme.mode == old(theme.mode)
      ensures user == old(user) && count == old(count) && step == old(step)
      ensures notifications == old(notifications)
      ensures Snapshot() == Apply(old(Snapshot()), Action.SetPrimaryColor(color))
    {
      theme := Recolored(theme, color);
    }

    method Increment()
      modifies this
      ensures count == old(count) + old(step)
      ensures user == old(user) && theme == old(theme) && step == old(step)
      ensures notifications == old(notifications)
      ensures Snapshot() == Apply(old(Snapshot()), Action.Increment)
    {
      count := count + step;
    }

    method Decrement()
      modifies this
      ensures count == old(count) - old(step)
      ensures user == old(user) && theme == old(theme) && step == old(step)
      ensures notifications == old(notifications)
      ensures Snapshot() == Apply(old(Snapshot()), Action.Decrement)
    {
      count := count - step;
    }

    method Reset()
      modifies this
      ensures count == 0
      ensures user == old(user) && theme == old(theme) && step == old(step)
      ensures notifications == old(notifications)
      ensures Snapshot() == Apply(old(Snapshot()), Action.Reset)
    {
      count := 0;
    }

    method SetCount(value: int)
      modifies this
      ensures count == value
      ensures user == old(user) && theme == old(theme) && step == old(step)
      ensures notifications == old(notifications)
      ensures Snapshot() == Apply(old(Snapshot()), Action.SetCount(value))
    {
      count := value;
    }

    method SetStep(value: int)
      modifies this
      ensures step == value
      ensures user == old(user) && theme == old(theme) && count == old(count)
      ensures notifications == old(notifications)
      ensures Snapshot() == Apply(old(Snapshot()), Action.SetStep(value))
    {
      step := value;
    }

    method AddNotification(message: string)
      modifies this
      ensures notifications == old(notifications) + [message]
      ensures user == old(user) && theme == old(theme) && count == old(count) && step == old(step)
      ensures Snapshot() == Apply(old(Snapshot()), Action.AddNotification(message))
    {
      notifications := Appended(notifications, message);
    }

    method RemoveNotification(index: int)
      modifies this
      ensures 0 <= index < |old(notifications)| ==>
                notifications == old(notifications)[..index] + old(notifications)[index + 1..]
      ensures !(0 <= index < |old(notifications)|) ==> notifications == old(notifications)
      ensures user == old(user) && theme == old(theme) && count == old(count) && step == old(step)
      ensures Snapshot() == Apply(old(Snapshot()), Action.RemoveNotification(index))
    {
      Properties.RemoveAtSlices(notifications, index);
      notifications := RemoveAt(notifications, index);
    }

    method ClearNotifications()
      modifies this
      ensures notifications == []
      ensures user == old(user) && theme == old(theme) && count == old(count) && step == old(step)
      ensures Snapshot() == Apply(old(Snapshot()), Action.ClearNotifications)
    {
      notifications := [];
    }
  }

  /** A client of a fresh store: `setStep(5)` and two increments give 10; `setStep(1)`
      and a decrement then give 9. */
  method CounterSession() returns (afterIncrements: int, afterDecrement: int)
    ensures afterIncrements == 10 && afterDecrement == 9
  {
    var store := new AppStore();
    store.SetStep(5);
    store.Increment();
    store.Increment();
    afterIncrements := store.count;
    store.SetStep(1);
    store.Decrement();
    afterDecrement := store.count;
  }

  /** A client of a fresh store: logging in as John and renaming to Jane keeps the email
      and the session. */
  method UserSession() returns (afterLogin: User, afterRename: User)
    ensures afterLogin == User("John Doe", "john@example.com", true)
    ensures afterRename == User("Jane Doe", "john@example.com", true)
  {
    var store := new AppStore();
    store.Login("John Doe", "john@example.com");
    afterLogin := store.user;
    store.UpdateName("Jane Doe");
    afterRename := store.user;
  }
}
