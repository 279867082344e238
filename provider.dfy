/** The context-based variant: a provider holding one state cell per field (the
    counter's count and step are two cells), the guard that refuses access outside a
    provider, and the action helpers, each of which overwrites one cell through its
    setter, plus the `setCount`/`setStep` setters the counter helper hands out. Every helper is stated against the same
    `Apply` as the global store's action of the same name, so the two variants agree. */
module Provider {
  import opened AppState
  import Properties
  import Store

  datatype Option<T> = None | Some(value: T)

  datatype Result<T> = Ok(value: T) | Err(message: string)

  const MissingProvider := "useApp must be used within an AppProvider"

  class AppProvider {
    var user: User
    var theme: Theme
    var count: int
    var step: int
    var notifications: seq<string>

    /** All cells at once, for stating each helper against `Apply`. */
    function Snapshot(): (r: State)
      reads this
    {
      State(user, theme, count, step, notifications)
    }

    /** Each cell starts at the same default as the global store's field. */
    constructor ()
      ensures user == User("", "", false)
      ensures theme == Theme(Light, "#3b82f6")
      ensures count == 0 && step == 1 && notifications == []
      ensures Snapshot() == Initial
    {
      user := LoggedOut;
      theme := DefaultTheme;
      count := 0;
      step := 1;
      notifications := [];
    }

    method Login(name: string, email: string)
      modifies this
      ensures user == User(name, email, true)
      ensures theme == old(theme) && count == old(count) && step == old(step)
      ensures notifications == old(notifications)
      ensures Snapshot() == Apply(old(Snapshot()), Action.Login(name, email))
    {
      user := User(name, email, true);
    }

    method Logout()
      modifies this
      ensures user == User("", "", false)
      ensures theme == old(theme) && count == old(count) && step == old(step)
      ensures notifications == old(notifications)
      ensures Snapshot() == Apply(old(Snapshot()), Action.Logout)
    {
      user := User("", "", false);
    }

    method UpdateName(name: string)
      modifies this
      ensures user.name == name
      ensures user.email == old(user.email) && user.isLoggedIn == old(user.isLoggedIn)
      ensures theme == old(theme) && count == old(count) && step == old(step)
      ensures notifications == old(notifications)
      ensures Snapshot() == Apply(old(Snapshot()), Action.UpdateName(name))
    {
      var prev := user;
      user := prev.(name := name);
    }

    method ToggleTheme()
      modifies this
      ensures theme.mode == Flip(old(theme.mode)) && theme.primaryColor == old(theme.primaryColor)
      ensures user == old(user) && count == old(count) && step == old(step)
      ensures notifications == old(notifications)
      ensures Snapshot() == Apply(old(Snapshot()), Action.ToggleTheme)
    {
      var prev := theme;
      theme := prev.(mode := if prev.mode == Light then Dark else Light);
    }

    method SetPrimaryColor(color: string)
      modifies this
      ensures theme.primaryColor == color && theme.mode == old(theme.mode)
      ensures user == old(user) && count == old(count) && step == old(step)
      ensures notifications == old(notifications)
      ensures Snapshot() == Apply(old(Snapshot()), Action.SetPrimaryColor(color))
    {
      var prev := theme;
      theme := prev.(primaryColor := color);
    }

    method Increment()
      modifies this
      ensures count == old(count) + old(step)
      ensures user == old(user) && theme == old(theme) && step == old(step)
      ensures notifications == old(notifications)
      ensures Snapshot() == Apply(old(Snapshot()), Action.Increment)
    {
      var prev := count;
      count := prev + step;
    }

    method Decrement()
      modifies this
      ensures count == old(count) - old(step)
      ensures user == old(user) && theme == old(theme) && step == old(step)
      ensures notifications == old(notifications)
      ensures Snapshot() == Apply(old(Snapshot()), Action.Decrement)
    {
      var prev := count;
      count := prev - step;
    }

    method Reset()
      modifies this
      ensures count == 0
      ensures user == old(user) && theme == old(theme) && step == old(step)
      ensures notifications == old(notifications)
      ensures Snapshot() == Apply(old(Snapshot()), Action.Reset)
    {
      count := 0;
    }

    /** The `setCount` cell setter, handed out by the counter helper as it is. */
    method SetCount(value: int)
      modifies this
      ensures count == value
      ensures user == old(user) && theme == old(theme) && step == old(step)
      ensures notifications == old(notifications)
      ensures Snapshot() == Apply(old(Snapshot()), Action.SetCount(value))
    {
      count := value;
    }

    /** The `setStep` cell setter, handed out by the counter helper as it is. */
    method SetStep(value: int)
      modifies this
      ensures step == value
      ensures user == old(user) && theme == old(theme) && count == old(count)
      ensures notifications == old(notifications)
      ensures Snapshot() == Apply(old(Snapshot()), Action.SetStep(value))
    {
      step := value;
    }

    method AddNotification(message: string)
      modifies this
      ensures notifications == old(notifications) + [message]
      ensures user == old(user) && theme == old(theme) && count == old(count) && step == old(step)
      ensures Snapshot() == Apply(old(Snapshot()), Action.AddNotification(message))
    {
      var prev := notifications;
      notifications := prev + [message];
    }

    method RemoveNotification(index: int)
      modifies this
      ensures 0 <= index < |old(notifications)| ==>
                notifications == old(notifications)[..index] + old(notifications)[index + 1..]
      ensures !(0 <= index < |old(notifications)|) ==> notifications == old(notifications)
      ensures user == old(user) && theme == old(theme) && count == old(count) && step == old(step)
      ensures Snapshot() == Apply(old(Snapshot()), Action.RemoveNotification(index))
    {
      var prev := notifications;
      Properties.RemoveAtSlices(prev, index);
      notifications := RemoveAt(prev, index);
    }

    method ClearNotifications()
      modifies this
      ensures notifications == []
      ensures user == old(user) && theme == old(theme) && count == old(count) && step == old(step)
      ensures Snapshot() == Apply(old(Snapshot()), Action.ClearNotifications)
    {
      notifications := [];
    }
  }

  /** Reading the context: the enclosing provider when there is one, otherwise the
      missing-provider error. */
  function UseApp(context: Option<AppProvider>): (r: Result<AppProvider>)
    ensures r.Err? <==> context.None?
    ensures r.Err? ==> r.message == "useApp must be used within an AppProvider"
    ensures r.Ok? ==> r.value == context.value
  {
    match context
    case None => Err(MissingProvider)
    case Some(provider) => Ok(provider)
  }

  /** The provider and the global store run the same scenario to the same counts: a
      client of a fresh provider. */
  method CounterSession() returns (afterIncrements: int, afterDecrement: int)
    ensures afterIncrements == 10 && afterDecrement == 9
  {
    var provider := new AppProvider();
    provider.SetStep(5);
    provider.Increment();
    provider.Increment();
    afterIncrements := provider.count;
    provider.SetStep(1);
    provider.Decrement();
    afterDecrement := provider.count;
  }

  /** A fresh global store and a fresh provider, given the same calls through all thirteen
      actions, end in the same state. */
  method SameSession() returns (storeState: State, providerState: State)
    ensures storeState == providerState
    ensures storeState.user == User("Jane Doe", "john@example.com", true)
    ensures storeState.theme == Theme(Dark, "#ff0000")
    ensures storeState.count == 5 && storeState.step == 5
    ensures storeState.notifications == ["second"]
  {
    var st := new Store.AppStore();
    var pr := new AppProvider();
    st.Login("John Doe", "john@example.com"); pr.Login("John Doe", "john@example.com");
    st.Logout(); pr.Logout();
    st.Login("John Doe", "john@example.com"); pr.Login("John Doe", "john@example.com");
    st.UpdateName("Jane Doe"); pr.UpdateName("Jane Doe");
    assert st.Snapshot() == pr.Snapshot();
    st.ToggleTheme(); pr.ToggleTheme();
    st.SetPrimaryColor("#ff0000"); pr.SetPrimaryColor("#ff0000");
    assert st.Snapshot() == pr.Snapshot();
    st.SetCount(7); pr.SetCount(7);
    st.Reset(); pr.Reset();
    st.SetStep(5); pr.SetStep(5);
    assert st.Snapshot() == pr.Snapshot();
    st.Increment(); pr.Increment();
    st.Increment(); pr.Increment();
    st.Decrement(); pr.Decrement();
    assert st.Snapshot() == pr.Snapshot();
    st.AddNotification("first"); pr.AddNotification("first");
    st.AddNotification("second"); pr.AddNotification("second");
    assert st.Snapshot() == pr.Snapshot();
    st.RemoveNotification(0); pr.RemoveNotification(0);
    st.RemoveNotification(5); pr.RemoveNotification(5);
    assert st.Snapshot() == pr.Snapshot();
    st.ClearNotifications(); pr.ClearNotifications();
    st.AddNotification("second"); pr.AddNotification("second");
    storeState := st.Snapshot();
    providerState := pr.Snapshot();
  }

  /** From any state the store and the provider share, the same action leaves them in the
      same state again: the state that `Apply` gives. */
  method AgreeOnAction(st: Store.AppStore, pr: AppProvider, a: Action)
    requires st.Snapshot() == pr.Snapshot()
    modifies st, pr
    ensures st.Snapshot() == pr.Snapshot() == Apply(old(st.Snapshot()), a)
  {
    match a
    case Login(name, email) => st.Login(name, email); pr.Login(name, email);
    case Logout => st.Logout(); pr.Logout();
    case UpdateName(name) => st.UpdateName(name); pr.UpdateName(name);
    case ToggleTheme => st.ToggleTheme(); pr.ToggleTheme();
    case SetPrimaryColor(color) => st.SetPrimaryColor(color); pr.SetPrimaryColor(color);
    case Increment => st.Increment(); pr.Increment();
    case Decrement => st.Decrement(); pr.Decrement();
    case Reset => st.Reset(); pr.Reset();
    case SetCount(value) => st.SetCount(value); pr.SetCount(value);
    case SetStep(value) => st.SetStep(value); pr.SetStep(value);
    case AddNotification(message) => st.AddNotification(message); pr.AddNotification(message);
    case RemoveNotification(index) => st.RemoveNotification(index); pr.RemoveNotification(index);
    case ClearNotifications => st.ClearNotifications(); pr.ClearNotifications();
  }
}
