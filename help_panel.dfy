/**
 * The help panel of the sign-in page. A "Need help?" link under the login
 * area and a "Back to the login form" control inside the help content both
 * run the same toggle, which flips `showingHelper` and re-renders: exactly
 * one of the help content and the login area is displayed. Every element is
 * looked up once, when the script loads. A missing login form or help
 * content turns rendering into a no-op; a missing login area makes the
 * script throw where it is used.
 */
module HelpPanel {

  /** An element's inline `style.display`: not set, `"block"` or `"none"`. */
  datatype Display = Unset | Block | Hidden

  /** The inline display of the help content and of the login area. */
  datatype Panels = Panels(help: Display, login: Display)

  /**
   * What rendering makes of the two panels: exactly one of them is shown,
   * and it is the help content exactly when the helper is to be shown.
   */
  function RenderedPanels(showingHelper: bool): (p: Panels)
    ensures (p.help == Block && p.login == Hidden) || (p.help == Hidden && p.login == Block)
    ensures p.help == Block <==> showingHelper
  {
    if showingHelper then Panels(Block, Hidden) else Panels(Hidden, Block)
  }

  /** The value of `showingHelper` after `toggles` toggles from `start`. */
  function ShowingAfter(start: bool, toggles: nat): (showing: bool)
  {
    if toggles == 0 then start else !ShowingAfter(start, toggles - 1)
  }

  /**
   * Toggling is self-inverse: after an even number of toggles the flag is
   * back where it started, after an odd number it is flipped.
   */
  lemma {:induction false} ToggleParity(start: bool, toggles: nat)
    ensures ShowingAfter(start, toggles) == (if toggles % 2 == 0 then start else !start)
  {
    if toggles > 0 {
      ToggleParity(start, toggles - 1);
    }
  }

  /**
   * The page's panel state. The three element references are looked up
   * once and never change; `helpContent` exists once `CreateHelpContent`
   * has built it.
   */
  class Controller {
    const loginAreaPresent: bool
    const loginFormPresent: bool
    const authAreaPresent: bool
    var helpContentPresent: bool
    var showingHelper: bool
    var helpDisplay: Display
    var loginDisplay: Display
    /** How many "Need help?" links have been appended to the login area. */
    var helpLinks: nat
    /** How many toggles have run since the script loaded. */
    ghost var toggles: nat

    ghost predicate Valid()
      reads this
    {
      && showingHelper == ShowingAfter(false, toggles)
      && (!helpContentPresent ==> helpDisplay == Unset)
      && (helpContentPresent ==> authAreaPresent)
    }

    /** The helper is showing exactly when an odd number of toggles has run. */
    lemma ShowingIffOddToggles()
      requires Valid()
      ensures showingHelper <==> toggles % 2 == 1
    {
      ToggleParity(false, toggles);
    }

    /** Both panels exist and are displayed as `showingHelper` says. */
    predicate Rendered()
      reads this
    {
      && loginFormPresent && helpContentPresent
      && Panels(helpDisplay, loginDisplay) == RenderedPanels(showingHelper)
    }

    /** The element lookups and variable declarations that run when the script loads. */
    constructor (loginAreaPresent: bool, loginFormPresent: bool, authAreaPresent: bool)
      ensures Valid()
      ensures this.loginAreaPresent == loginAreaPresent
      ensures this.loginFormPresent == loginFormPresent
      ensures this.authAreaPresent == authAreaPresent
      ensures !helpContentPresent && !showingHelper && toggles == 0 && helpLinks == 0
      ensures helpDisplay == Unset && loginDisplay == Unset
    {
      this.loginAreaPresent := loginAreaPresent;
      this.loginFormPresent := loginFormPresent;
      this.authAreaPresent := authAreaPresent;
      helpContentPresent := false;
      showingHelper := false;
      helpDisplay := Unset;
      loginDisplay := Unset;
      helpLinks := 0;
      toggles := 0;
    }

    /**
     * Appends a "Need help?" link, wired to `ToggleHelpContent`, to the
     * login area. Without a login area the append throws: `ok` is false and
     * nothing has changed.
     */
    method CreateHelpersForLoginForm() returns (ok: bool)
      modifies this`helpLinks
      ensures ok == loginAreaPresent
      ensures helpLinks == old(helpLinks) + (if ok then 1 else 0)
    {
      ok := loginAreaPresent;
      if ok {
        helpLinks := helpLinks + 1;
      }
    }

    /**
     * Builds the help content, hidden, with its "Back to the login form"
     * control wired to `ToggleHelpContent`, and appends it to the auth area.
     * Without an auth area it does nothing.
     */
    method CreateHelpContent()
      requires Valid()
      modifies this`helpContentPresent, this`helpDisplay
      ensures Valid()
      ensures authAreaPresent ==> helpContentPresent && helpDisplay == Hidden
      ensures !authAreaPresent ==> !helpContentPresent && helpDisplay == old(helpDisplay)
    {
      if !authAreaPresent {
        return;
      }
      helpContentPresent := true;
      helpDisplay := Hidden;
    }

    /**
     * Shows the help content and hides the login area. Without a login area
     * the second write throws: `ok` is false and only the first has happened.
     */
    method OpenHelpContent() returns (ok: bool)
      requires helpContentPresent
      modifies this`helpDisplay, this`loginDisplay
      ensures ok == loginAreaPresent
      ensures helpDisplay == Block
      ensures loginDisplay == if ok then Hidden else old(loginDisplay)
    {
      helpDisplay := Block;
      ok := loginAreaPresent;
      if ok {
        loginDisplay := Hidden;
      }
    }

    /** Hides the help content and shows the login area; throws as `OpenHelpContent` does. */
    method CloseHelpContent() returns (ok: bool)
      requires helpContentPresent
      modifies this`helpDisplay, this`loginDisplay
      ensures ok == loginAreaPresent
      ensures helpDisplay == Hidden
      ensures loginDisplay == if ok then Block else old(loginDisplay)
    {
      helpDisplay := Hidden;
      ok := loginAreaPresent;
      if ok {
        loginDisplay := Block;
      }
    }

    /**
     * Renders `showingHelper`. Without the login form or the help content it
     * does nothing; with both and the login area, the panels end up as
     * `RenderedPanels` says.
     */
    method UpdateUI() returns (ok: bool)
      requires Valid()
      modifies this`helpDisplay, this`loginDisplay
      ensures Valid()
      ensures !loginFormPresent || !helpContentPresent ==>
        ok && helpDisplay == old(helpDisplay) && loginDisplay == old(loginDisplay)
      ensures loginFormPresent && helpContentPresent ==>
        && ok == loginAreaPresent
        && helpDisplay == RenderedPanels(showingHelper).help
        && loginDisplay == (if ok then RenderedPanels(showingHelper).login else old(loginDisplay))
    {
      if !loginFormPresent || !helpContentPresent {
        return true;
      }
      if showingHelper {
        ok := OpenHelpContent();
      } else {
        ok := CloseHelpContent();
      }
    }

    /** Flips `showingHelper`, whether or not anything can be rendered, then renders it. */
    method ToggleHelpContent() returns (ok: bool)
      requires Valid()
      modifies this`showingHelper, this`toggles, this`helpDisplay, this`loginDisplay
      ensures Valid()
      ensures showingHelper == !old(showingHelper) && toggles == old(toggles) + 1
      ensures !loginFormPresent || !helpContentPresent ==>
        ok && helpDisplay == old(helpDisplay) && loginDisplay == old(loginDisplay)
      ensures loginFormPresent && helpContentPresent && loginAreaPresent ==> ok && Rendered()
      ensures loginFormPresent && helpContentPresent && !loginAreaPresent ==>
        && !ok
        && helpDisplay == RenderedPanels(showingHelper).help
        && loginDisplay == old(loginDisplay)
    {
      showingHelper := !showingHelper;
      toggles := toggles + 1;
      ok := UpdateUI();
    }

    /**
     * The statements that run when the script loads: the "Need help?" link,
     * the help content, then a first render. A missing login area stops the
     * script at the first step.
     */
    method Load() returns (ok: bool)
      requires Valid()
      requires !helpContentPresent && toggles == 0 && helpLinks == 0
      modifies this`helpLinks, this`helpContentPresent, this`helpDisplay, this`loginDisplay
      ensures Valid() && toggles == 0 && !showingHelper
      ensures ok == loginAreaPresent
      ensures helpLinks == if ok then 1 else 0
      ensures helpContentPresent == (ok && authAreaPresent)
      ensures loginAreaPresent && loginFormPresent && authAreaPresent ==>
        Rendered() && helpDisplay == Hidden && loginDisplay == Block
      ensures !helpContentPresent || !loginFormPresent ==> loginDisplay == old(loginDisplay)
      ensures helpContentPresent ==> helpDisplay == Hidden
    {
      ok := CreateHelpersForLoginForm();
      if !ok {
        return;
      }
      CreateHelpContent();
      ok := UpdateUI();
    }
  }

  /**
   * A page with every element present: after loading, one click on "Need
   * help?" shows the help, "Back to the login form" shows the login area
   * again, and a third click shows the help once more.
   */
  method ClickThrough()
  {
    var page := new Controller(true, true, true);
    var ok := page.Load();
    assert page.helpDisplay == Hidden && page.loginDisplay == Block;
    ok := page.ToggleHelpContent();
    assert page.helpDisplay == Block && page.loginDisplay == Hidden;
    ok := page.ToggleHelpContent();
    assert page.helpDisplay == Hidden && page.loginDisplay == Block;
    ok := page.ToggleHelpContent();
    page.ShowingIffOddToggles();
    assert page.toggles == 3 && page.showingHelper && page.helpDisplay == Block;
  }
}
