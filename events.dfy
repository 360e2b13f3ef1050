/** The event hierarchy (Event.hpp): every event has a type, a bit set of categories
    and a handled flag that starts cleared. */
module Events {
  import opened Input

  /** EventCategory: one bit per category, with None the empty set. */
  const CategoryNone: bv32 := 0
  const CategoryApplication: bv32 := 1 << 0
  const CategoryInput: bv32 := 1 << 1
  const CategoryKeyboard: bv32 := 1 << 2
  const CategoryMouse: bv32 := 1 << 3
  const CategoryMouseButton: bv32 := 1 << 4

  const Categories: set<bv32> :=
    {CategoryApplication, CategoryInput, CategoryKeyboard, CategoryMouse, CategoryMouseButton}

  datatype EventType =
    | NoEvent
    | WindowResize
    | WindowClose
    | KeyPressed
    | KeyReleased
    | MouseButtonPressed
    | MouseButtonReleased
    | MouseMoved
    | MouseScrolled

  /** A GLFW mouse button code. */
  type MouseCode = int

  /** The concrete event classes and what each carries. */
  datatype Payload =
    | KeyPressedEvent(keycode: KeyCode, isRepeat: bool)
    | KeyReleasedEvent(keycode: KeyCode)
    | MouseMovedEvent(mouseX: real, mouseY: real)
    | MouseScrolledEvent(xOffset: real, yOffset: real)
    | MouseButtonPressedEvent(pressedButton: MouseCode)
    | MouseButtonReleasedEvent(releasedButton: MouseCode)
    | WindowResizeEvent(width: int, height: int)
    | WindowCloseEvent

  datatype Event = Event(payload: Payload, handled: bool)

  /** Constructing any event: m_handled starts false. */
  function NewEvent(payload: Payload): (e: Event)
    ensures e.payload == payload && !e.handled
  {
    Event(payload, false)
  }

  /** The KeyPressedEvent constructor, whose isRepeat argument defaults to false. */
  function NewKeyPressed(keycode: KeyCode, isRepeat: bool := false): (e: Event)
    ensures e.payload.KeyPressedEvent? && e.payload.keycode == keycode && e.payload.isRepeat == isRepeat
    ensures !e.handled
  {
    NewEvent(KeyPressedEvent(keycode, isRepeat))
  }

  /** getType: each concrete class reports its own event type. */
  function GetType(e: Event): EventType
  {
    match e.payload
    case KeyPressedEvent(_, _) => KeyPressed
    case KeyReleasedEvent(_) => KeyReleased
    case MouseMovedEvent(_, _) => MouseMoved
    case MouseScrolledEvent(_, _) => MouseScrolled
    case MouseButtonPressedEvent(_) => MouseButtonPressed
    case MouseButtonReleasedEvent(_) => MouseButtonReleased
    case WindowResizeEvent(_, _) => WindowResize
    case WindowCloseEvent => WindowClose
  }

  /** getCategoryFlags: key events are keyboard input, mouse motion and scrolling are
      mouse input, mouse buttons are additionally mouse-button events, and window
      events are application events. */
  function GetCategoryFlags(e: Event): bv32
  {
    match e.payload
    case KeyPressedEvent(_, _) => CategoryKeyboard | CategoryInput
    case KeyReleasedEvent(_) => CategoryKeyboard | CategoryInput
    case MouseMovedEvent(_, _) => CategoryMouse | CategoryInput
    case MouseScrolledEvent(_, _) => CategoryMouse | CategoryInput
    case MouseButtonPressedEvent(_) => CategoryMouse | CategoryInput | CategoryMouseButton
    case MouseButtonReleasedEvent(_) => CategoryMouse | CategoryInput | CategoryMouseButton
    case WindowResizeEvent(_, _) => CategoryApplication
    case WindowCloseEvent => CategoryApplication
  }

  /** Event::isInCategory: the event's flags share a bit with the category. */
  function IsInCategory(e: Event, category: bv32): (b: bool)
    ensures b <==> GetCategoryFlags(e) & category != 0
  {
    GetCategoryFlags(e) & category != 0
  }

  /** The categories of an event, as the set of category constants it is in. */
  function CategoriesOf(e: Event): (cs: set<bv32>)
    ensures cs <= Categories
    ensures forall c | c in Categories :: c in cs <==> IsInCategory(e, c)
  {
    set c | c in Categories && IsInCategory(e, c)
  }

  /** The category constants are five different single bits. */
  lemma CategoriesAreSingleBits()
    ensures |Categories| == 5
    ensures forall c | c in Categories :: c != 0 && c & (c - 1) == 0
    ensures forall c, d | c in Categories && d in Categories && c != d :: c & d == 0
  {
  }

  /** No event is in the None category. */
  lemma NoneMatchesNothing(e: Event)
    ensures !IsInCategory(e, CategoryNone)
  {
  }

  /** Key events are exactly keyboard and input events. */
  lemma KeyEventCategories(e: Event)
    requires e.payload.KeyPressedEvent? || e.payload.KeyReleasedEvent?
    ensures CategoriesOf(e) == {CategoryKeyboard, CategoryInput}
  {
    assert IsInCategory(e, CategoryKeyboard) && IsInCategory(e, CategoryInput);
  }

  /** Mouse motion and scrolling are mouse and input events; mouse buttons are also
      mouse-button events. */
  lemma MouseEventCategories(e: Event)
    ensures e.payload.MouseMovedEvent? || e.payload.MouseScrolledEvent? ==>
      CategoriesOf(e) == {CategoryMouse, CategoryInput}
    ensures e.payload.MouseButtonPressedEvent? || e.payload.MouseButtonReleasedEvent? ==>
      CategoriesOf(e) == {CategoryMouse, CategoryInput, CategoryMouseButton}
  {
    if e.payload.MouseMovedEvent? || e.payload.MouseScrolledEvent? {
      assert IsInCategory(e, CategoryMouse) && IsInCategory(e, CategoryInput);
    }
    if e.payload.MouseButtonPressedEvent? || e.payload.MouseButtonReleasedEvent? {
      assert IsInCategory(e, CategoryMouse) && IsInCategory(e, CategoryInput) && IsInCategory(e, CategoryMouseButton);
    }
  }

  /** Window events are application events only. */
  lemma WindowEventCategories(e: Event)
    requires e.payload.WindowResizeEvent? || e.payload.WindowCloseEvent?
    ensures CategoriesOf(e) == {CategoryApplication}
  {
    assert IsInCategory(e, CategoryApplication);
  }

  /** The type and the categories agree: keyboard events are exactly the key types,
      mouse events exactly the mouse types, application events exactly the window
      types, and every event is in some category. */
  lemma TypeMatchesCategory(e: Event)
    ensures IsInCategory(e, CategoryKeyboard) <==> GetType(e) in {KeyPressed, KeyReleased}
    ensures IsInCategory(e, CategoryMouse) <==> GetType(e) in {MouseMoved, MouseScrolled, MouseButtonPressed, MouseButtonReleased}
    ensures IsInCategory(e, CategoryApplication) <==> GetType(e) in {WindowResize, WindowClose}
    ensures IsInCategory(e, CategoryInput) <==> !IsInCategory(e, CategoryApplication)
    ensures GetType(e) != NoEvent
  {
  }
}
