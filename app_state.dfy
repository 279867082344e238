/** The application state container shared by the global store and the context provider:
    the four slices, their initial values, the value each action computes for its slice,
    and the reducer that applies one action, or a sequence of actions, to a whole state. */
module AppState {

  /** The two theme modes; `toggleTheme` is the only transition between them. */
  datatype Mode = Light | Dark

  datatype User = User(name: string, email: string, isLoggedIn: bool)

  datatype Theme = Theme(mode: Mode, primaryColor: string)

  /** One snapshot of every slice. `count`, `step` and notification indices are
      unbounded integers here; the source's numbers are floating point. */
  datatype State = State(
    user: User,
    theme: Theme,
    count: int,
    step: int,
    notifications: seq<string>)

  /** The user slice right after start-up and after `logout`. */
  const LoggedOut := User("", "", false)

  const DefaultPrimaryColor := "#3b82f6"

  const DefaultTheme := Theme(Light, DefaultPrimaryColor)

  /** The state the container starts in. */
  const Initial := State(LoggedOut, DefaultTheme, 0, 1, [])

  /** The mode `toggleTheme` switches to: the other one of the two. */
  function Flip(m: Mode): (r: Mode)
    ensures r != m
  {
    if m == Light then Dark else Light
  }

  /** The theme after `toggleTheme`: the mode changes, the colour does not. */
  function Toggled(t: Theme): (r: Theme)
    ensures r.mode != t.mode && r.primaryColor == t.primaryColor
  {
    t.(mode := Flip(t.mode))
  }

  /** The theme after `setPrimaryColor(color)`: any text is accepted as the colour. */
  function Recolored(t: Theme, color: string): (r: Theme)
    ensures r.primaryColor == color && r.mode == t.mode
  {
    t.(primaryColor := color)
  }

  /** The user after `updateName(name)`: whether or not anyone is logged in. */
  function Renamed(u: User, name: string): (r: User)
    ensures r.name == name && r.email == u.email && r.isLoggedIn == u.isLoggedIn
  {
    u.(name := name)
  }

  /** The list after `addNotification(message)`: the old list, then the message. */
  function Appended(s: seq<string>, message: string): (r: seq<string>)
    ensures |r| == |s| + 1 && r[..|s|] == s && r[|s|] == message
  {
    s + [message]
  }

  /** The list after `removeNotification(index)`: every element whose position differs
      from `index`, in order. An index outside the list removes nothing. */
  function RemoveAt<T>(s: seq<T>, index: int): (r: seq<T>)
    ensures |r| == if 0 <= index < |s| then |s| - 1 else |s|
    decreases |s|
  {
    if s == [] then []
    else
      var last := |s| - 1;
      var kept := RemoveAt(s[..last], index);
      if last == index then kept else kept + [s[last]]
  }

  /** The thirteen actions, with their arguments. */
  datatype Action =
    | Login(name: string, email: string)
    | Logout
    | UpdateName(name: string)
    | ToggleTheme
    | SetPrimaryColor(color: string)
    | Increment
    | Decrement
    | Reset
    | SetCount(count: int)
    | SetStep(step: int)
    | AddNotification(message: string)
    | RemoveNotification(index: int)
    | ClearNotifications

  /** The field of `State` that each action replaces. */
  datatype Field = UserField | ThemeField | CountField | StepField | NotificationsField

  function Target(a: Action): (r: Field)
  {
    match a
    case Login(_, _) => UserField
    case Logout => UserField
    case UpdateName(_) => UserField
    case ToggleTheme => ThemeField
    case SetPrimaryColor(_) => ThemeField
    case Increment => CountField
    case Decrement => CountField
    case Reset => CountField
    case SetCount(_) => CountField
    case SetStep(_) => StepField
    case AddNotification(_) => NotificationsField
    case RemoveNotification(_) => NotificationsField
    case ClearNotifications => NotificationsField
  }

  /** The state after one action: its slice is replaced by a value computed from the
      previous state, and every other field keeps its value. */
  function Apply(s: State, a: Action): (r: State)
    ensures Target(a) != UserField ==> r.user == s.user
    ensures Target(a) != ThemeField ==> r.theme == s.theme
    ensures Target(a) != CountField ==> r.count == s.count
    ensures Target(a) != StepField ==> r.step == s.step
    ensures Target(a) != NotificationsField ==> r.notifications == s.notifications
  {
    match a
    case Login(name, email) => s.(user := User(name, email, true))
    case Logout => s.(user := LoggedOut)
    case UpdateName(name) => s.(user := Renamed(s.user, name))
    case ToggleTheme => s.(theme := Toggled(s.theme))
    case SetPrimaryColor(color) => s.(theme := Recolored(s.theme, color))
    case Increment => s.(count := s.count + s.step)
    case Decrement => s.(count := s.count - s.step)
    case Reset => s.(count := 0)
    case SetCount(value) => s.(count := value)
    case SetStep(value) => s.(step := value)
    case AddNotification(message) => s.(notifications := Appended(s.notifications, message))
    case RemoveNotification(index) => s.(notifications := RemoveAt(s.notifications, index))
    case ClearNotifications => s.(notifications := [])
  }

  /** The state after applying `acts` in order, the first one first. */
  function Run(s: State, acts: seq<Action>): (r: State)
    decreases |acts|
  {
    if acts == [] then s
    else Apply(Run(s, acts[..|acts| - 1]), acts[|acts| - 1])
  }
}
