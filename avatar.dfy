/**
 * The animation logic of AvatarComponent.jsx. The loaded model's clips are stored in
 * a table from clip name to action; an action is modelled by the index of the clip it
 * plays and whether it is playing. On every change of bot state or sentiment all
 * actions are stopped and the one chosen for the state is played.
 */
module Avatar {
  import opened Wrappers
  import opened BotStates
  import Chat

  /**
   * The animation wanted for a bot state: an active state has its own animation
   * whatever the sentiment; when idle, only a sentiment strictly above 0.3 is
   * "Happy" and only one strictly below -0.3 is "Sad".
   */
  function AnimationName(state: BotState, sentiment: real): (n: string)
    ensures n == "Listening" <==> state == Listening
    ensures n == "Thinking" <==> state == Thinking
    ensures n == "Talking" <==> state == Speaking
    ensures n == "Happy" <==> state == Idle && sentiment > 0.3
    ensures n == "Sad" <==> state == Idle && sentiment < -0.3
    ensures n == "Idle" <==> state == Idle && -0.3 <= sentiment <= 0.3
  {
    match state
    case Listening => "Listening"
    case Thinking => "Thinking"
    case Speaking => "Talking"
    case Idle =>
      if sentiment > 0.3 then "Happy"
      else if sentiment < -0.3 then "Sad"
      else "Idle"
  }

  /**
   * The action to play: the wanted one if the table has it, else "Idle" if the table
   * has that, else none.
   */
  function ChooseTarget(names: set<string>, wanted: string): (t: Option<string>)
    ensures t.Some? ==> t.value in names
    ensures t.Some? ==> t.value == wanted || t.value == "Idle"
    ensures t.None? <==> wanted !in names && "Idle" !in names
    ensures wanted in names ==> t == Some(wanted)
  {
    if wanted in names then Some(wanted)
    else if "Idle" in names then Some("Idle")
    else None
  }

  /** The 3D avatar and the chat page's emoji avatar read the bot state and sentiment
      the same way: each animation corresponds to exactly one face. */
  lemma AnimationMatchesFace(state: BotState, sentiment: real)
    ensures AnimationName(state, sentiment) == "Listening" <==> Chat.Expression(state, sentiment) == Chat.Ear
    ensures AnimationName(state, sentiment) == "Thinking" <==> Chat.Expression(state, sentiment) == Chat.Ponder
    ensures AnimationName(state, sentiment) == "Happy" <==> Chat.Expression(state, sentiment) == Chat.Smile
    ensures AnimationName(state, sentiment) == "Sad" <==> Chat.Expression(state, sentiment) == Chat.Frown
    ensures AnimationName(state, sentiment) == "Idle" <==> Chat.Expression(state, sentiment) == Chat.Neutral
    ensures AnimationName(state, sentiment) == "Talking" <==> Chat.Expression(state, sentiment) == Chat.Talk
  {
  }

  datatype Action = Action(clip: nat, playing: bool)

  class Animator {
    /** `isLoaded`: the model has arrived. */
    var isLoaded: bool
    /** A mixer exists: the model came with at least one clip. */
    var hasMixer: bool
    /** `animationsRef.current`: clip name to action. */
    var actions: map<string, Action>

    ghost predicate Valid()
      reads this
    {
      && (!isLoaded ==> actions == map[] && !hasMixer)
      && (!hasMixer ==> actions == map[])
    }

    /** At most one action is playing. */
    ghost predicate AtMostOnePlaying()
      reads this
    {
      forall a, b :: a in actions && b in actions && actions[a].playing && actions[b].playing ==> a == b
    }

    constructor ()
      ensures Valid() && !isLoaded && !hasMixer && actions == map[]
    {
      isLoaded, hasMixer, actions := false, false, map[];
    }

    /**
     * The model arrives with the clips named `clips`. Each clip is stored under its name,
     * so a later clip with a name overwrites an earlier one; then "Idle", if present,
     * is the one action playing.
     */
    method Load(clips: seq<string>)
      requires Valid() && !isLoaded
      modifies this
      ensures Valid() && isLoaded && hasMixer == (|clips| > 0)
      ensures forall n :: n in actions <==> n in clips
      ensures forall n :: n in actions ==>
                var k := actions[n].clip;
                k < |clips| && clips[k] == n && forall j :: k < j < |clips| ==> clips[j] != n
      ensures forall n :: n in actions ==> (actions[n].playing <==> n == "Idle")
      ensures AtMostOnePlaying()
    {
      if |clips| > 0 {
        hasMixer := true;
        var i := 0;
        while i < |clips|
          invariant 0 <= i <= |clips|
          invariant hasMixer && !isLoaded
          invariant forall n :: n in actions <==> n in clips[..i]
          invariant forall n :: n in actions ==>
                      var k := actions[n].clip;
                      k < i && clips[k] == n && !actions[n].playing
                      && forall j :: k < j < i ==> clips[j] != n
        {
          actions := actions[clips[i] := Action(i, false)];
          i := i + 1;
        }
        assert clips[..i] == clips;
        if "Idle" in actions {
          actions := actions["Idle" := actions["Idle"].(playing := true)];
        }
      }
      isLoaded := true;
    }

    /**
     * The bot-state effect. It does nothing before the model is loaded with a mixer.
     * Otherwise every action is stopped, and then the action for the state (or the
     * "Idle" fallback) is restarted, so at most that one plays.
     */
    method Update(state: BotState, sentiment: real)
      requires Valid()
      modifies this
      ensures Valid() && isLoaded == old(isLoaded) && hasMixer == old(hasMixer)
      ensures !(old(isLoaded) && old(hasMixer)) ==> actions == old(actions)
      ensures actions.Keys == old(actions.Keys)
      ensures forall n :: n in actions ==> actions[n].clip == old(actions[n].clip)
      ensures old(isLoaded) && old(hasMixer) ==>
                forall n :: n in actions ==>
                  (actions[n].playing <==> ChooseTarget(actions.Keys, AnimationName(state, sentiment)) == Some(n))
      ensures old(isLoaded) && old(hasMixer) ==> AtMostOnePlaying()
    {
      if !isLoaded || !hasMixer {
        return;
      }
      var todo := actions.Keys;
      while todo != {}
        invariant isLoaded && hasMixer
        invariant todo <= actions.Keys
        invariant actions.Keys == old(actions.Keys)
        invariant forall n :: n in actions ==> actions[n].clip == old(actions[n].clip)
        invariant forall n :: n in actions && n !in todo ==> !actions[n].playing
        decreases todo
      {
        var n :| n in todo;
        actions := actions[n := actions[n].(playing := false)];
        todo := todo - {n};
      }
      var target := ChooseTarget(actions.Keys, AnimationName(state, sentiment));
      if target.Some? {
        actions := actions[target.value := actions[target.value].(playing := true)];
      }
    }
  }

  /** A model whose clips lack "Talking": speaking falls back to "Idle". */
  method FallbackScenario()
  {
    var avatar := new Animator();
    var clips := ["Idle", "Listening", "Idle"];
    assert clips[0] == clips[2] == "Idle" && clips[1] == "Listening";
    avatar.Load(clips);
    assert avatar.actions["Idle"].clip == 2;
    avatar.Update(Speaking, 0.0);
    assert "Talking" !in avatar.actions.Keys;
    assert avatar.actions["Idle"].playing && !avatar.actions["Listening"].playing;
  }
}
