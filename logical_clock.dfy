/** The Lamport receive rule shared by both simulations: on receiving an event
    stamped `received`, a process sets its clock to `max(clock, received) + 1`
    (lamport_clock.py `_update_lamport_clock`, reliable_multicast_lamport.py
    `handle_receive`). The local-event rule, `clock + 1`, is written inline. */
module LogicalClock {

  /** `max(clock, received) + 1`. The contract pins the value down: it exceeds
      both inputs, and it is one more than one of them. */
  function Advance(clock: nat, received: int): (r: nat)
    ensures r > clock && r > received
    ensures r == clock + 1 || r == received + 1
  {
    if clock >= received then clock + 1 else received + 1
  }
}
