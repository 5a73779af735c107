/** The player animation objective (type 22): play an animation on the player. */
module PlayerAnimationObjectives {
  import opened Actors

  /** Both fields are any integers; there is no field constraint. */
  datatype ObjectivePlayerAnimation = ObjectivePlayerAnimation(animation: int, animationArgument: int)

  /** The default: no animation (-1) and argument 0. */
  function DefaultObjectivePlayerAnimation(): (o: ObjectivePlayerAnimation)
    ensures o.animation == AnimationCode(NoAnimation) && o.animationArgument == 0
  {
    ObjectivePlayerAnimation(-1, 0)
  }
}
