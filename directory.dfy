/**
 * The emergency directory: the static text each category button answers
 * with (main.py:155-172).
 */
module Directory {
  import opened Options
  import Text
  import Payload

  const Police: string := "Police number: 102!"
  const Emergency: string := "Emergency number (General help): 112!"
  const Fire: string := "Fire service number: 101!"
  const Ambulance: string := "Ambulance number: 103!"
  const Gas: string := "Gas emergency number: 104!"

  /** The reply to `all_numbers`, as main.py:167-171 spells it out. */
  const AllNumbers: string :=
    "Police number: 102!\n" +
    "Emergency number (General help): 112!\n" +
    "Fire service number: 101!\n" +
    "Ambulance number: 103!\n" +
    "Gas emergency number: 104!"

  /** The five single categories, in the order of the menu and of `all_numbers`. */
  const Categories: seq<string> := ["police", "emergency", "fire", "ambulance", "gas"]
  const AllNumbersKey: string := "all_numbers"

  /** The reply a category button gets; `None` for any other payload (no reply is sent). */
  function Lookup(data: string): (r: Option<string>)
    ensures r.Some? <==> data in Categories || data == AllNumbersKey
  {
    if data == "police" then Some(Police)
    else if data == "emergency" then Some(Emergency)
    else if data == "fire" then Some(Fire)
    else if data == "ambulance" then Some(Ambulance)
    else if data == "gas" then Some(Gas)
    else if data == AllNumbersKey then Some(AllNumbers)
    else None
  }

  /** `all_numbers` answers with the five single replies joined by newlines, police first and gas last. */
  lemma AllNumbersIsJoin()
    ensures forall k | 0 <= k < |Categories| :: Lookup(Categories[k]).Some?
    ensures Lookup(AllNumbersKey) == Some(Text.Join(seq(|Categories|, k requires 0 <= k < |Categories| => Lookup(Categories[k]).value), '\n'))
  {
    var replies := seq(|Categories|, k requires 0 <= k < |Categories| => Lookup(Categories[k]).value);
    assert replies[0] == Police && replies[1] == Emergency && replies[2] == Fire;
    assert replies[3] == Ambulance && replies[4] == Gas;
    JoinFive(replies);
  }

  lemma JoinFive(replies: seq<string>)
    requires |replies| == 5
    requires replies[0] == Police && replies[1] == Emergency && replies[2] == Fire
    requires replies[3] == Ambulance && replies[4] == Gas
    ensures Text.Join(replies, '\n') == AllNumbers
  {
    AllNumbersLines();
    assert Text.Join(replies[4..], '\n') == Gas;
    assert Text.Join(replies[3..], '\n') == Ambulance + "\n" + Gas;
    assert Text.Join(replies[2..], '\n') == Fire + "\n" + (Ambulance + "\n" + Gas);
    assert Text.Join(replies[1..], '\n') == Emergency + "\n" + (Fire + "\n" + (Ambulance + "\n" + Gas));
    assert Text.Join(replies, '\n') == Police + "\n" + (Emergency + "\n" + (Fire + "\n" + (Ambulance + "\n" + Gas)));
  }

  /** The five literals that main.py:167-171 concatenates are the five single replies, each ended by a newline. */
  lemma AllNumbersLines()
    ensures AllNumbers == Police + "\n" + (Emergency + "\n" + (Fire + "\n" + (Ambulance + "\n" + Gas)))
  {
    assert "Police number: 102!\n" == Police + "\n";
    assert "Emergency number (General help): 112!\n" == Emergency + "\n";
    assert "Fire service number: 101!\n" == Fire + "\n";
    assert "Ambulance number: 103!\n" == Ambulance + "\n";
  }

  /** No category key starts with the block prefix, so a `block_` payload gets no directory reply. */
  lemma BlockPayloadIsNoCategory(data: string)
    requires Payload.BlockPrefix <= data
    ensures Lookup(data) == None
  {
    assert data[0] == 'b';
  }
}
