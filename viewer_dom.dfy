/**
 * The controls the two viewer components render and the listeners their
 * setup attaches to them: the part of the DOM the wiring depends on.
 * Both components run the same sequence of `querySelector` and
 * `addEventListener` calls; they differ in the classes of their buttons.
 */
module ViewerDom {
  import opened Wrappers
  import opened JsSemantics
  import AudioPlayback

  /** A `<button>`: its `className` and its text. */
  datatype Button = Button(className: string, text: string)

  /** The controls of one stem: a checkbox and a range slider, both named after the stem. */
  datatype TrackControl = TrackControl(name: string, checked: bool, value: real, min: real, max: real, step: real)

  /** What a button handler does to the player. */
  datatype Action = PlayAction | PauseAction | StopAction

  /** A listener the setup attaches, and the element it is attached to (by position among its kind). */
  datatype Listener =
    | ClickListener(button: nat, action: Action)
    | ChangeListener(checkbox: nat)
    | InputListener(range: nat)

  /** `Object.keys(urls)`. */
  function Keys(urls: AudioPlayback.Entries): (keys: seq<string>)
    ensures |keys| == |urls|
    ensures forall i :: 0 <= i < |urls| ==> keys[i] == urls[i].0
  {
    seq(|urls|, i requires 0 <= i < |urls| => urls[i].0)
  }

  /** `querySelector("." + c)` among the buttons: the first button of that class, in document order. */
  function FirstWithClass(buttons: seq<Button>, c: string): (r: Option<nat>)
    ensures r.Some? ==> r.value < |buttons| && buttons[r.value].className == c
    ensures r.Some? ==> forall j :: 0 <= j < r.value ==> buttons[j].className != c
    ensures r.None? ==> forall j :: 0 <= j < |buttons| ==> buttons[j].className != c
  {
    if buttons == [] then None
    else if buttons[0].className == c then Some(0)
    else match FirstWithClass(buttons[1..], c)
      case None => None
      case Some(i) => Some(i + 1)
  }

  /** What the component renders for each key of the audio URLs: checked, at 1 on a 0..1 scale in 0.01 steps. */
  function TrackControls(keys: seq<string>): seq<TrackControl> {
    seq(|keys|, i requires 0 <= i < |keys| => TrackControl(keys[i], true, 1.0, 0.0, 1.0, 0.01))
  }

  /** One change listener per checkbox, in document order. */
  function ChangeListeners(n: nat): seq<Listener> {
    seq(n, i requires 0 <= i => ChangeListener(i))
  }

  /** One input listener per range slider, in document order. */
  function InputListeners(n: nat): seq<Listener> {
    seq(n, i requires 0 <= i => InputListener(i))
  }

  /**
   * The setup's wiring: the Play, Pause and Stop listeners on the first
   * button of class "play", "pause" and "stop", then a listener on every
   * checkbox and every slider. A missing button makes `querySelector`
   * return null, and the call on it throws a TypeError that ends the setup.
   */
  function Wiring(buttons: seq<Button>, n: nat): (seq<Listener>, Outcome<JsError>) {
    match FirstWithClass(buttons, "play")
    case None => ([], Fail(TypeError))
    case Some(p) =>
      match FirstWithClass(buttons, "pause")
      case None => ([ClickListener(p, PlayAction)], Fail(TypeError))
      case Some(q) =>
        match FirstWithClass(buttons, "stop")
        case None => ([ClickListener(p, PlayAction), ClickListener(q, PauseAction)], Fail(TypeError))
        case Some(t) =>
          ([ClickListener(p, PlayAction), ClickListener(q, PauseAction), ClickListener(t, StopAction)]
             + ChangeListeners(n) + InputListeners(n), Pass)
  }

  /** Whether the listener for `a` is attached to button b. */
  predicate Wired(listeners: seq<Listener>, b: nat, a: Action) {
    ClickListener(b, a) in listeners
  }

  /** Each stem gets one control, named after it, checked and at full level inside its range. */
  lemma ControlsPerKey(urls: AudioPlayback.Entries)
    ensures var c := TrackControls(Keys(urls));
      && |c| == |urls|
      && (forall i :: 0 <= i < |urls| ==> c[i].name == urls[i].0 && c[i].checked)
      && (forall i :: 0 <= i < |urls| ==> c[i].min <= c[i].value <= c[i].max && c[i].value == 1.0)
      && (set i | 0 <= i < |c| :: c[i].name) == AudioPlayback.EntryKeys(urls)
  {
    var c := TrackControls(Keys(urls));
    assert (set i | 0 <= i < |c| :: c[i].name) == AudioPlayback.EntryKeys(urls) by {
      forall k | k in AudioPlayback.EntryKeys(urls) ensures k in (set i | 0 <= i < |c| :: c[i].name) {
        var i :| 0 <= i < |urls| && urls[i].0 == k;
        assert c[i].name == k;
      }
    }
  }

  /**
   * When all three buttons are found, each gets exactly its own handler,
   * and every checkbox and slider exactly one listener.
   */
  lemma CompleteWiring(buttons: seq<Button>, n: nat)
    requires FirstWithClass(buttons, "play").Some?
    requires FirstWithClass(buttons, "pause").Some?
    requires FirstWithClass(buttons, "stop").Some?
    ensures var (l, r) := Wiring(buttons, n);
      && r == Pass && |l| == 3 + 2 * n
      && Wired(l, FirstWithClass(buttons, "play").value, PlayAction)
      && Wired(l, FirstWithClass(buttons, "pause").value, PauseAction)
      && Wired(l, FirstWithClass(buttons, "stop").value, StopAction)
      && (forall i :: 0 <= i < n ==> multiset(l)[ChangeListener(i)] == 1 && multiset(l)[InputListener(i)] == 1)
  {
    var p, q, t := FirstWithClass(buttons, "play").value, FirstWithClass(buttons, "pause").value, FirstWithClass(buttons, "stop").value;
    var head := [ClickListener(p, PlayAction), ClickListener(q, PauseAction), ClickListener(t, StopAction)];
    var l := head + ChangeListeners(n) + InputListeners(n);
    assert Wiring(buttons, n) == (l, Pass);
    assert l[0] == head[0] && l[1] == head[1] && l[2] == head[2];
    StemListenersOnce(head, n);
  }

  /** After click listeners, every checkbox and every slider has exactly one listener. */
  lemma StemListenersOnce(head: seq<Listener>, n: nat)
    requires forall j :: 0 <= j < |head| ==> head[j].ClickListener?
    ensures forall i :: 0 <= i < n ==>
      && multiset(head + ChangeListeners(n) + InputListeners(n))[ChangeListener(i)] == 1
      && multiset(head + ChangeListeners(n) + InputListeners(n))[InputListener(i)] == 1
  {
    var ch, inp := ChangeListeners(n), InputListeners(n);
    assert multiset(head + ch + inp) == multiset(head) + multiset(ch) + multiset(inp);
    forall i | 0 <= i < n
      ensures multiset(head + ch + inp)[ChangeListener(i)] == 1 && multiset(head + ch + inp)[InputListener(i)] == 1
    {
      OnceIn(ch, i, ChangeListener(i));
      OnceIn(inp, i, InputListener(i));
      NotIn(head, ChangeListener(i));
      NotIn(head, InputListener(i));
      NotIn(inp, ChangeListener(i));
      NotIn(ch, InputListener(i));
    }
  }

  /** A value that occurs at exactly one position of s occurs once in multiset(s). */
  lemma {:induction false} OnceIn<T>(s: seq<T>, i: nat, x: T)
    requires i < |s| && s[i] == x
    requires forall j :: 0 <= j < |s| && j != i ==> s[j] != x
    ensures multiset(s)[x] == 1
  {
    if |s| > 0 {
      var last := |s| - 1;
      assert s == s[..last] + [s[last]];
      if i == last {
        NotIn(s[..last], x);
      } else {
        OnceIn(s[..last], i, x);
      }
    }
  }

  lemma NotIn<T>(s: seq<T>, x: T)
    requires forall j :: 0 <= j < |s| ==> s[j] != x
    ensures multiset(s)[x] == 0
  {
    assert x !in s;
  }

  /** The buttons and stem controls of a mounted viewer, with the listeners attached so far. */
  class Controls {
    const buttons: seq<Button>
    /** How many stems have a checkbox and a slider. */
    const stems: nat
    /** `disabled` is false on every button. */
    var enabled: bool
    var listeners: seq<Listener>

    constructor (buttons: seq<Button>, stems: nat)
      ensures this.buttons == buttons && this.stems == stems && !enabled && listeners == []
    {
      this.buttons := buttons;
      this.stems := stems;
      enabled := false;
      listeners := [];
    }

    /** `querySelectorAll("button").forEach(el => el.disabled = false)`. */
    method Enable()
      modifies this`enabled
      ensures enabled
    {
      enabled := true;
    }

    /** The `addEventListener` calls of the setup, in their order. */
    method Attach() returns (r: Outcome<JsError>)
      modifies this`listeners
      ensures listeners == old(listeners) + Wiring(buttons, stems).0
      ensures r == Wiring(buttons, stems).1
    {
      var play := FirstWithClass(buttons, "play");
      if play.None? {
        return Fail(TypeError);
      }
      listeners := listeners + [ClickListener(play.value, PlayAction)];
      var pause := FirstWithClass(buttons, "pause");
      if pause.None? {
        return Fail(TypeError);
      }
      listeners := listeners + [ClickListener(pause.value, PauseAction)];
      var stop := FirstWithClass(buttons, "stop");
      if stop.None? {
        return Fail(TypeError);
      }
      listeners := listeners + [ClickListener(stop.value, StopAction)];
      var head := listeners;
      for i := 0 to stems
        invariant listeners == head + ChangeListeners(i)
      {
        assert ChangeListeners(i + 1) == ChangeListeners(i) + [ChangeListener(i)];
        listeners := listeners + [ChangeListener(i)];
      }
      var checkboxes := listeners;
      for i := 0 to stems
        invariant listeners == checkboxes + InputListeners(i)
      {
        assert InputListeners(i + 1) == InputListeners(i) + [InputListener(i)];
        listeners := listeners + [InputListener(i)];
      }
      r := Pass;
    }
  }
}
