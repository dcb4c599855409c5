/**
 * The navigator (src/navigation/AppNavigator.jsx): which screens are mounted is
 * a single conditional on the PIN, guest mode without one and table mode with one.
 */
module AppNavigator {
  import opened Wrappers
  import opened CartContext

  /** The route names of the stack. */
  datatype Screen = Home | QRScanner | Menu | Cart | OrderDetails | Payment

  /** The screens registered in the stack for the given PIN. */
  function Reachable(pin: Option<string>): (r: set<Screen>)
    ensures !PinSet(pin) ==> r == {Home, QRScanner, Menu, Cart}
    ensures PinSet(pin) ==> r == {Home, Menu, Cart, OrderDetails, Payment}
  {
    if !PinSet(pin) then {Home, QRScanner, Menu, Cart}
    else {Home, Menu, Cart, OrderDetails, Payment}
  }

  /** Only whether a PIN is set matters, not which PIN it is. */
  lemma ReachableDependsOnlyOnPinSet(p: Option<string>, q: Option<string>)
    requires PinSet(p) == PinSet(q)
    ensures Reachable(p) == Reachable(q)
  {
  }

  /**
   * Order tracking and payment are reachable exactly in table mode, the scanner
   * exactly in guest mode; home, menu and cart in both.
   */
  lemma ReachableByMode(pin: Option<string>)
    ensures OrderDetails in Reachable(pin) <==> PinSet(pin)
    ensures Payment in Reachable(pin) <==> PinSet(pin)
    ensures QRScanner in Reachable(pin) <==> !PinSet(pin)
    ensures Home in Reachable(pin) && Menu in Reachable(pin) && Cart in Reachable(pin)
  {
  }

  /** After a full reset the app is back in guest mode. */
  lemma ResetReturnsToGuestScreens(s: Session)
    ensures Reachable(Exited(s).pin) == {Home, QRScanner, Menu, Cart}
  {
  }
}
