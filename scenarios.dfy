/** The examples of test.js, one matrix each. The statement of each example is its
    `...Example` lemma: what `findPath` returns on that matrix. The lemmas before it are
    proof steps. They locate the markers row by row, resolve the walk move by move
    (`...Move`), join moves into legs (`...Leg`, `...Walk`, `...Arrive`), and assemble
    the path text and the word from literal pieces (`...Route`, `...Join`, `...Word`).
    Each is kept small so that no single proof grows large. */
module Scenarios {
  import opened Outcomes
  import opened Glyphs
  import opened Matrix
  import opened Sequences
  import opened Locator
  import opened Resolver
  import opened Traversal

  // test.js:16, "Basic example"

  const Basic: Grid := [
      ["@", "-", "-", "-", "A", "-", "-", "-", "+"],
      [" ", " ", " ", " ", " ", " ", " ", " ", "|"],
      ["x", "-", "B", "-", "+", " ", " ", " ", "C"],
      [" ", " ", " ", " ", "|", " ", " ", " ", "|"],
      [" ", " ", " ", " ", "+", "-", "-", "-", "+"]
    ]

  lemma BasicStartLocated()
    ensures Locate(Basic, START) == Ok(Position(0, 0))
  {
    forall i | 0 <= i < |Basic| && i != 0
      ensures START !in Basic[i]
    {
      if i == 1 {
      } else if i == 2 {
      } else if i == 3 {
      } else {
      }
    }
    LocateAt(Basic, START, Position(0, 0));
  }

  lemma BasicEndLocated()
    ensures Locate(Basic, END) == Ok(Position(2, 0))
  {
    forall i | 0 <= i < |Basic| && i != 2
      ensures END !in Basic[i]
    {
      if i == 0 {
      } else if i == 1 {
      } else if i == 3 {
      } else {
      }
    }
    LocateAt(Basic, END, Position(2, 0));
  }

  const BasicMoves: seq<Direction> :=
    [Right, Right, Right, Right]
    + [Right, Right, Right, Right]
    + [Down, Down, Down, Down]
    + [Left, Left, Left, Left]
    + [Up, Up, Left, Left]
    + [Left, Left]

  lemma BasicMove0()
    ensures Moves(Resolve, Basic, Position(0, 0), None, Right)
  {
    SetsOff(Basic, Position(0, 0), Right);
  }

  lemma BasicMove1()
    ensures Moves(Resolve, Basic, Position(0, 1), Some(Right), Right)
  {
    KeepsHeading(Basic, Position(0, 1), Right, "-");
  }

  lemma BasicMove2()
    ensures Moves(Resolve, Basic, Position(0, 2), Some(Right), Right)
  {
    KeepsHeading(Basic, Position(0, 2), Right, "-");
  }

  lemma BasicMove3()
    ensures Moves(Resolve, Basic, Position(0, 3), Some(Right), Right)
  {
    KeepsHeading(Basic, Position(0, 3), Right, "-");
  }

  lemma BasicMove4()
    ensures Moves(Resolve, Basic, Position(0, 4), Some(Right), Right)
  {
    KeepsHeading(Basic, Position(0, 4), Right, "A");
  }

  lemma BasicMove5()
    ensures Moves(Resolve, Basic, Position(0, 5), Some(Right), Right)
  {
    KeepsHeading(Basic, Position(0, 5), Right, "-");
  }

  lemma BasicMove6()
    ensures Moves(Resolve, Basic, Position(0, 6), Some(Right), Right)
  {
    KeepsHeading(Basic, Position(0, 6), Right, "-");
  }

  lemma BasicMove7()
    ensures Moves(Resolve, Basic, Position(0, 7), Some(Right), Right)
  {
    KeepsHeading(Basic, Position(0, 7), Right, "-");
  }

  lemma BasicMove8()
    ensures Moves(Resolve, Basic, Position(0, 8), Some(Right), Down)
  {
    TurnsTo(Basic, Position(0, 8), Right, Down);
  }

  lemma BasicMove9()
    ensures Moves(Resolve, Basic, Position(1, 8), Some(Down), Down)
  {
    KeepsHeading(Basic, Position(1, 8), Down, "|");
  }

  lemma BasicMove10()
    ensures Moves(Resolve, Basic, Position(2, 8), Some(Down), Down)
  {
    KeepsHeading(Basic, Position(2, 8), Down, "C");
  }

  lemma BasicMove11()
    ensures Moves(Resolve, Basic, Position(3, 8), Some(Down), Down)
  {
    KeepsHeading(Basic, Position(3, 8), Down, "|");
  }

  lemma BasicMove12()
    ensures Moves(Resolve, Basic, Position(4, 8), Some(Down), Left)
  {
    TurnsTo(Basic, Position(4, 8), Down, Left);
  }

  lemma BasicMove13()
    ensures Moves(Resolve, Basic, Position(4, 7), Some(Left), Left)
  {
    KeepsHeading(Basic, Position(4, 7), Left, "-");
  }

  lemma BasicMove14()
    ensures Moves(Resolve, Basic, Position(4, 6), Some(Left), Left)
  {
    KeepsHeading(Basic, Position(4, 6), Left, "-");
  }

  lemma BasicMove15()
    ensures Moves(Resolve, Basic, Position(4, 5), Some(Left), Left)
  {
    KeepsHeading(Basic, Position(4, 5), Left, "-");
  }

  lemma BasicMove16()
    ensures Moves(Resolve, Basic, Position(4, 4), Some(Left), Up)
  {
    TurnsTo(Basic, Position(4, 4), Left, Up);
  }

  lemma BasicMove17()
    ensures Moves(Resolve, Basic, Position(3, 4), Some(Up), Up)
  {
    KeepsHeading(Basic, Position(3, 4), Up, "|");
  }

  lemma BasicMove18()
    ensures Moves(Resolve, Basic, Position(2, 4), Some(Up), Left)
  {
    TurnsTo(Basic, Position(2, 4), Up, Left);
  }

  lemma BasicMove19()
    ensures Moves(Resolve, Basic, Position(2, 3), Some(Left), Left)
  {
    KeepsHeading(Basic, Position(2, 3), Left, "-");
  }

  lemma BasicMove20()
    ensures Moves(Resolve, Basic, Position(2, 2), Some(Left), Left)
  {
    KeepsHeading(Basic, Position(2, 2), Left, "B");
  }

  lemma BasicMove21()
    ensures Moves(Resolve, Basic, Position(2, 1), Some(Left), Left)
  {
    KeepsHeading(Basic, Position(2, 1), Left, "-");
  }

  lemma BasicLeg0()
    ensures Follows(Resolve, Basic, Position(0, 0), None, [Right, Right, Right, Right])
  {
    assert Follows(Resolve, Basic, Position(0, 3), Some(Right), [Right]) by {
      BasicMove3();
    }
    assert Follows(Resolve, Basic, Position(0, 2), Some(Right), [Right, Right]) by {
      BasicMove2();
    }
    assert Follows(Resolve, Basic, Position(0, 1), Some(Right), [Right, Right, Right]) by {
      BasicMove1();
    }
    BasicMove0();
  }

  lemma BasicLegEnd0()
    ensures End(Position(0, 0), [Right, Right, Right, Right]) == Position(0, 4)
  {
  }

  lemma BasicLeg1()
    ensures Follows(Resolve, Basic, Position(0, 4), Some(Right), [Right, Right, Right, Right])
  {
    assert Follows(Resolve, Basic, Position(0, 7), Some(Right), [Right]) by {
      BasicMove7();
    }
    assert Follows(Resolve, Basic, Position(0, 6), Some(Right), [Right, Right]) by {
      BasicMove6();
    }
    assert Follows(Resolve, Basic, Position(0, 5), Some(Right), [Right, Right, Right]) by {
      BasicMove5();
    }
    BasicMove4();
  }

  lemma BasicLegEnd1()
    ensures End(Position(0, 4), [Right, Right, Right, Right]) == Position(0, 8)
  {
  }

  lemma BasicLeg2()
    ensures Follows(Resolve, Basic, Position(0, 8), Some(Right), [Down, Down, Down, Down])
  {
    assert Follows(Resolve, Basic, Position(3, 8), Some(Down), [Down]) by {
      BasicMove11();
    }
    assert Follows(Resolve, Basic, Position(2, 8), Some(Down), [Down, Down]) by {
      BasicMove10();
    }
    assert Follows(Resolve, Basic, Position(1, 8), Some(Down), [Down, Down, Down]) by {
      BasicMove9();
    }
    BasicMove8();
  }

  lemma BasicLegEnd2()
    ensures End(Position(0, 8), [Down, Down, Down, Down]) == Position(4, 8)
  {
  }

  lemma BasicLeg3()
    ensures Follows(Resolve, Basic, Position(4, 8), Some(Down), [Left, Left, Left, Left])
  {
    assert Follows(Resolve, Basic, Position(4, 5), Some(Left), [Left]) by {
      BasicMove15();
    }
    assert Follows(Resolve, Basic, Position(4, 6), Some(Left), [Left, Left]) by {
      BasicMove14();
    }
    assert Follows(Resolve, Basic, Position(4, 7), Some(Left), [Left, Left, Left]) by {
      BasicMove13();
    }
    BasicMove12();
  }

  lemma BasicLegEnd3()
    ensures End(Position(4, 8), [Left, Left, Left, Left]) == Position(4, 4)
  {
  }

  lemma BasicLeg4()
    ensures Follows(Resolve, Basic, Position(4, 4), Some(Left), [Up, Up, Left, Left])
  {
    assert Follows(Resolve, Basic, Position(2, 3), Some(Left), [Left]) by {
      BasicMove19();
    }
    assert Follows(Resolve, Basic, Position(2, 4), Some(Up), [Left, Left]) by {
      BasicMove18();
    }
    assert Follows(Resolve, Basic, Position(3, 4), Some(Up), [Up, Left, Left]) by {
      BasicMove17();
    }
    BasicMove16();
  }

  lemma BasicLegEnd4()
    ensures End(Position(4, 4), [Up, Up, Left, Left]) == Position(2, 2)
  {
  }

  lemma BasicLeg5()
    ensures Follows(Resolve, Basic, Position(2, 2), Some(Left), [Left, Left])
  {
    assert Follows(Resolve, Basic, Position(2, 1), Some(Left), [Left]) by {
      BasicMove21();
    }
    BasicMove20();
  }

  lemma BasicLegEnd5()
    ensures End(Position(2, 2), [Left, Left]) == Position(2, 0)
  {
  }

  lemma BasicArrive1()
    ensures End(Position(0, 0), [Right, Right, Right, Right] + [Right, Right, Right, Right])
        == Position(0, 8)
  {
    BasicLegEnd0();
    BasicLegEnd1();
    StepsJoin(Position(0, 0), [Right, Right, Right, Right], Position(0, 4), [Right, Right, Right,
        Right]);
  }

  lemma BasicWalk1()
    ensures Follows(Resolve, Basic, Position(0, 0), None, [Right, Right, Right, Right] + [Right,
        Right, Right, Right])
  {
    BasicLeg0();
    BasicLegEnd0();
    BasicLeg1();
    FollowsJoin(Resolve, Basic, Position(0, 0), None, [Right, Right, Right, Right], Position(0, 4),
        [Right, Right, Right, Right]);
  }

  lemma BasicArrive2()
    ensures End(Position(0, 0), [Right, Right, Right, Right] + [Right, Right, Right, Right] + [Down,
        Down, Down, Down]) == Position(4, 8)
  {
    BasicArrive1();
    BasicLegEnd2();
    StepsJoin(Position(0, 0), [Right, Right, Right, Right] + [Right, Right, Right, Right],
        Position(0, 8), [Down, Down, Down, Down]);
  }

  lemma BasicWalk2()
    ensures Follows(Resolve, Basic, Position(0, 0), None, [Right, Right, Right, Right] + [Right,
        Right, Right, Right] + [Down, Down, Down, Down])
  {
    BasicWalk1();
    BasicArrive1();
    BasicLeg2();
    FollowsJoin(Resolve, Basic, Position(0, 0), None, [Right, Right, Right, Right] + [Right, Right,
        Right, Right], Position(0, 8), [Down, Down, Down, Down]);
  }

  lemma BasicArrive3()
    ensures End(Position(0, 0), [Right, Right, Right, Right] + [Right, Right, Right, Right] + [Down,
        Down, Down, Down] + [Left, Left, Left, Left]) == Position(4, 4)
  {
    BasicArrive2();
    BasicLegEnd3();
    StepsJoin(Position(0, 0), [Right, Right, Right, Right] + [Right, Right, Right, Right] + [Down,
        Down, Down, Down], Position(4, 8), [Left, Left, Left, Left]);
  }

  lemma BasicWalk3()
    ensures Follows(Resolve, Basic, Position(0, 0), None, [Right, Right, Right, Right] + [Right,
        Right, Right, Right] + [Down, Down, Down, Down] + [Left, Left, Left, Left])
  {
    BasicWalk2();
    BasicArrive2();
    BasicLeg3();
    FollowsJoin(Resolve, Basic, Position(0, 0), None, [Right, Right, Right, Right] + [Right, Right,
        Right, Right] + [Down, Down, Down, Down], Position(4, 8), [Left, Left, Left, Left]);
  }

  lemma BasicArrive4()
    ensures End(Position(0, 0), [Right, Right, Right, Right] + [Right, Right, Right, Right] + [Down,
        Down, Down, Down] + [Left, Left, Left, Left] + [Up, Up, Left, Left]) == Position(2, 2)
  {
    BasicArrive3();
    BasicLegEnd4();
    StepsJoin(Position(0, 0), [Right, Right, Right, Right] + [Right, Right, Right, Right] + [Down,
        Down, Down, Down] + [Left, Left, Left, Left], Position(4, 4), [Up, Up, Left, Left]);
  }

  lemma BasicWalk4()
    ensures Follows(Resolve, Basic, Position(0, 0), None, [Right, Right, Right, Right] + [Right,
        Right, Right, Right] + [Down, Down, Down, Down] + [Left, Left, Left, Left] + [Up, Up, Left,
        Left])
  {
    BasicWalk3();
    BasicArrive3();
    BasicLeg4();
    FollowsJoin(Resolve, Basic, Position(0, 0), None, [Right, Right, Right, Right] + [Right, Right,
        Right, Right] + [Down, Down, Down, Down] + [Left, Left, Left, Left], Position(4, 4), [Up, Up,
        Left, Left]);
  }

  lemma BasicArrive5()
    ensures End(Position(0, 0), [Right, Right, Right, Right] + [Right, Right, Right, Right] + [Down,
        Down, Down, Down] + [Left, Left, Left, Left] + [Up, Up, Left, Left] + [Left, Left])
        == Position(2, 0)
  {
    BasicArrive4();
    BasicLegEnd5();
    StepsJoin(Position(0, 0), [Right, Right, Right, Right] + [Right, Right, Right, Right] + [Down,
        Down, Down, Down] + [Left, Left, Left, Left] + [Up, Up, Left, Left], Position(2, 2), [Left,
        Left]);
  }

  lemma BasicWalk5()
    ensures Follows(Resolve, Basic, Position(0, 0), None, [Right, Right, Right, Right] + [Right,
        Right, Right, Right] + [Down, Down, Down, Down] + [Left, Left, Left, Left] + [Up, Up, Left,
        Left] + [Left, Left])
  {
    BasicWalk4();
    BasicArrive4();
    BasicLeg5();
    FollowsJoin(Resolve, Basic, Position(0, 0), None, [Right, Right, Right, Right] + [Right, Right,
        Right, Right] + [Down, Down, Down, Down] + [Left, Left, Left, Left] + [Up, Up, Left, Left],
        Position(2, 2), [Left, Left]);
  }

  lemma BasicBound()
    ensures |BasicMoves| < StepBound(Basic)
  {
    FieldCountCoversRow(Basic, 0);
  }

  lemma BasicLegSteps0()
    ensures Steps(Position(0, 0), [Right, Right, Right, Right]) == [Position(0, 1), Position(0, 2),
        Position(0, 3), Position(0, 4)]
  {
  }

  lemma BasicLegText0()
    ensures Text(Basic, [Position(0, 1), Position(0, 2), Position(0, 3), Position(0, 4)]) == "---A"
  {
  }

  lemma BasicLegLetters0()
    ensures LetterPositions(Basic, [Position(0, 1), Position(0, 2), Position(0, 3), Position(0, 4)])
        == [Position(0, 4)]
  {
  }

  lemma BasicLegSteps1()
    ensures Steps(Position(0, 4), [Right, Right, Right, Right]) == [Position(0, 5), Position(0, 6),
        Position(0, 7), Position(0, 8)]
  {
  }

  lemma BasicLegText1()
    ensures Text(Basic, [Position(0, 5), Position(0, 6), Position(0, 7), Position(0, 8)]) == "---+"
  {
  }

  lemma BasicLegLetters1()
    ensures LetterPositions(Basic, [Position(0, 5), Position(0, 6), Position(0, 7), Position(0, 8)])
        == []
  {
  }

  lemma BasicLegSteps2()
    ensures Steps(Position(0, 8), [Down, Down, Down, Down]) == [Position(1, 8), Position(2, 8),
        Position(3, 8), Position(4, 8)]
  {
  }

  lemma BasicLegText2()
    ensures Text(Basic, [Position(1, 8), Position(2, 8), Position(3, 8), Position(4, 8)]) == "|C|+"
  {
  }

  lemma BasicLegLetters2()
    ensures LetterPositions(Basic, [Position(1, 8), Position(2, 8), Position(3, 8), Position(4, 8)])
        == [Position(2, 8)]
  {
  }

  lemma BasicLegSteps3()
    ensures Steps(Position(4, 8), [Left, Left, Left, Left]) == [Position(4, 7), Position(4, 6),
        Position(4, 5), Position(4, 4)]
  {
  }

  lemma BasicLegText3()
    ensures Text(Basic, [Position(4, 7), Position(4, 6), Position(4, 5), Position(4, 4)]) == "---+"
  {
  }

  lemma BasicLegLetters3()
    ensures LetterPositions(Basic, [Position(4, 7), Position(4, 6), Position(4, 5), Position(4, 4)])
        == []
  {
  }

  lemma BasicLegSteps4()
    ensures Steps(Position(4, 4), [Up, Up, Left, Left]) == [Position(3, 4), Position(2, 4),
        Position(2, 3), Position(2, 2)]
  {
  }

  lemma BasicLegText4()
    ensures Text(Basic, [Position(3, 4), Position(2, 4), Position(2, 3), Position(2, 2)]) == "|+-B"
  {
  }

  lemma BasicLegLetters4()
    ensures LetterPositions(Basic, [Position(3, 4), Position(2, 4), Position(2, 3), Position(2, 2)])
        == [Position(2, 2)]
  {
  }

  lemma BasicLegSteps5()
    ensures Steps(Position(2, 2), [Left, Left]) == [Position(2, 1), Position(2, 0)]
  {
  }

  lemma BasicLegText5()
    ensures Text(Basic, [Position(2, 1), Position(2, 0)]) == "-x"
  {
  }

  lemma BasicLegLetters5()
    ensures LetterPositions(Basic, [Position(2, 1), Position(2, 0)]) == []
  {
  }

  lemma BasicRoute0()
    ensures Text(Basic, [Position(0, 0)] + Steps(Position(0, 0), [Right, Right, Right, Right]))
        == "@---A"
    ensures LetterPositions(Basic, [Position(0, 0)] + Steps(Position(0, 0), [Right, Right, Right,
        Right])) == [Position(0, 4)]
  {
    BasicLegSteps0();
    BasicLegText0();
    BasicLegLetters0();
    TextConcat(Basic, [Position(0, 0)], [Position(0, 1), Position(0, 2), Position(0, 3),
        Position(0, 4)]);
    LetterPositionsAppend(Basic, [Position(0, 0)], [Position(0, 1), Position(0, 2), Position(0, 3),
        Position(0, 4)]);
    BasicJoin0();
  }

  lemma BasicJoin0()
    ensures "@" + "---A" == "@---A"
  {
  }

  lemma BasicRoute1()
    ensures Text(Basic, [Position(0, 0)] + Steps(Position(0, 0), [Right, Right, Right, Right]
        + [Right, Right, Right, Right])) == "@---A---+"
    ensures LetterPositions(Basic, [Position(0, 0)] + Steps(Position(0, 0), [Right, Right, Right,
        Right] + [Right, Right, Right, Right])) == [Position(0, 4)]
  {
    BasicLegSteps1();
    BasicLegText1();
    BasicLegLetters1();
    BasicRoute0();
    BasicLegEnd0();
    RouteJoin(Basic, Position(0, 0), [Right, Right, Right, Right], Position(0, 4), [Right, Right,
        Right, Right]);
    BasicJoin1();
  }

  lemma BasicJoin1()
    ensures "@---A" + "---+" == "@---A---+"
  {
  }

  lemma BasicRoute2()
    ensures Text(Basic, [Position(0, 0)] + Steps(Position(0, 0), [Right, Right, Right, Right]
        + [Right, Right, Right, Right] + [Down, Down, Down, Down])) == "@---A---+|C|+"
    ensures LetterPositions(Basic, [Position(0, 0)] + Steps(Position(0, 0), [Right, Right, Right,
        Right] + [Right, Right, Right, Right] + [Down, Down, Down, Down])) == [Position(0, 4),
        Position(2, 8)]
  {
    BasicLegSteps2();
    BasicLegText2();
    BasicLegLetters2();
    BasicRoute1();
    BasicArrive1();
    RouteJoin(Basic, Position(0, 0), [Right, Right, Right, Right] + [Right, Right, Right, Right],
        Position(0, 8), [Down, Down, Down, Down]);
    BasicJoin2();
  }

  lemma BasicJoin2()
    ensures "@---A---+" + "|C|+" == "@---A---+|C|+"
    ensures [Position(0, 4)] + [Position(2, 8)] == [Position(0, 4), Position(2, 8)]
  {
  }

  lemma BasicRoute3()
    ensures Text(Basic, [Position(0, 0)] + Steps(Position(0, 0), [Right, Right, Right, Right]
        + [Right, Right, Right, Right] + [Down, Down, Down, Down] + [Left, Left, Left, Left]))
        == "@---A---+|C|+---+"
    ensures LetterPositions(Basic, [Position(0, 0)] + Steps(Position(0, 0), [Right, Right, Right,
        Right] + [Right, Right, Right, Right] + [Down, Down, Down, Down] + [Left, Left, Left,
        Left])) == [Position(0, 4), Position(2, 8)]
  {
    BasicLegSteps3();
    BasicLegText3();
    BasicLegLetters3();
    BasicRoute2();
    BasicArrive2();
    RouteJoin(Basic, Position(0, 0), [Right, Right, Right, Right] + [Right, Right, Right, Right]
        + [Down, Down, Down, Down], Position(4, 8), [Left, Left, Left, Left]);
    BasicJoin3();
  }

  lemma BasicJoin3()
    ensures "@---A---+|C|+" + "---+" == "@---A---+|C|+---+"
  {
  }

  lemma BasicRoute4()
    ensures Text(Basic, [Position(0, 0)] + Steps(Position(0, 0), [Right, Right, Right, Right]
        + [Right, Right, Right, Right] + [Down, Down, Down, Down] + [Left, Left, Left, Left] + [Up,
        Up, Left, Left])) == "@---A---+|C|+---+|+-B"
    ensures LetterPositions(Basic, [Position(0, 0)] + Steps(Position(0, 0), [Right, Right, Right,
        Right] + [Right, Right, Right, Right] + [Down, Down, Down, Down] + [Left, Left, Left, Left]
        + [Up, Up, Left, Left])) == [Position(0, 4), Position(2, 8), Position(2, 2)]
  {
    BasicLegSteps4();
    BasicLegText4();
    BasicLegLetters4();
    BasicRoute3();
    BasicArrive3();
    RouteJoin(Basic, Position(0, 0), [Right, Right, Right, Right] + [Right, Right, Right, Right]
        + [Down, Down, Down, Down] + [Left, Left, Left, Left], Position(4, 4), [Up, Up, Left, Left]);
    BasicJoin4();
  }

  lemma BasicJoin4()
    ensures "@---A---+|C|+---+" + "|+-B" == "@---A---+|C|+---+|+-B"
    ensures [Position(0, 4), Position(2, 8)] + [Position(2, 2)] == [Position(0, 4), Position(2, 8),
        Position(2, 2)]
  {
  }

  lemma BasicRoute5()
    ensures Text(Basic, [Position(0, 0)] + Steps(Position(0, 0), [Right, Right, Right, Right]
        + [Right, Right, Right, Right] + [Down, Down, Down, Down] + [Left, Left, Left, Left] + [Up,
        Up, Left, Left] + [Left, Left])) == "@---A---+|C|+---+|+-B-x"
    ensures LetterPositions(Basic, [Position(0, 0)] + Steps(Position(0, 0), [Right, Right, Right,
        Right] + [Right, Right, Right, Right] + [Down, Down, Down, Down] + [Left, Left, Left, Left]
        + [Up, Up, Left, Left] + [Left, Left])) == [Position(0, 4), Position(2, 8), Position(2, 2)]
  {
    BasicLegSteps5();
    BasicLegText5();
    BasicLegLetters5();
    BasicRoute4();
    BasicArrive4();
    RouteJoin(Basic, Position(0, 0), [Right, Right, Right, Right] + [Right, Right, Right, Right]
        + [Down, Down, Down, Down] + [Left, Left, Left, Left] + [Up, Up, Left, Left], Position(2, 2),
        [Left, Left]);
    BasicJoin5();
  }

  lemma BasicJoin5()
    ensures "@---A---+|C|+---+|+-B" + "-x" == "@---A---+|C|+---+|+-B-x"
  {
  }

  lemma BasicDedup()
    ensures Dedup([Position(0, 4), Position(2, 8), Position(2, 2)]) == [Position(0, 4), Position(2, 8),
        Position(2, 2)]
  {
    var s := [Position(0, 4), Position(2, 8), Position(2, 2)];
    assert Firsts(s, 2) == [Position(2, 2)] + Firsts(s, 3);
    assert Firsts(s, 1) == [Position(2, 8)] + Firsts(s, 2);
    assert Firsts(s, 0) == [Position(0, 4)] + Firsts(s, 1);
  }

  lemma BasicWord()
    ensures Text(Basic, [Position(0, 4), Position(2, 8), Position(2, 2)]) == "ACB"
  {
  }

  /** The outcome test.js expects for "Basic example". */
  lemma BasicExample()
    ensures FindPathSpec(Basic) == Ok(PathResult("@---A---+|C|+---+|+-B-x", "ACB"))
  {
    BasicStartLocated();
    BasicEndLocated();
    BasicWalk5();
    BasicArrive5();
    BasicBound();
    FindPathFollowing(Resolve, Basic, Position(0, 0), BasicMoves);
    BasicRoute5();
    BasicDedup();
    BasicWord();
  }

  // test.js:31, "Go straight through intersections"

  const Intersections: Grid := [
      [" ", " ", "@"],
      [" ", " ", "|", " ", "+", "-", "C", "-", "-", "+"],
      [" ", " ", "A", " ", "|", " ", " ", " ", " ", "|"],
      [" ", " ", "+", "-", "-", "-", "B", "-", "-", "+"],
      [" ", " ", " ", " ", "|", " ", " ", " ", " ", " ", " ", "x"],
      [" ", " ", " ", " ", "|", " ", " ", " ", " ", " ", " ", "|"],
      [" ", " ", " ", " ", "+", "-", "-", "-", "D", "-", "-", "+"]
    ]

  lemma IntersectionsStartLocated()
    ensures Locate(Intersections, START) == Ok(Position(0, 2))
  {
    forall i | 0 <= i < |Intersections| && i != 0
      ensures START !in Intersections[i]
    {
      if i == 1 {
      } else if i == 2 {
      } else if i == 3 {
      } else if i == 4 {
      } else if i == 5 {
      } else {
      }
    }
    LocateAt(Intersections, START, Position(0, 2));
  }

  lemma IntersectionsEndLocated()
    ensures Locate(Intersections, END) == Ok(Position(4, 11))
  {
    forall i | 0 <= i < |Intersections| && i != 4
      ensures END !in Intersections[i]
    {
      if i == 0 {
      } else if i == 1 {
      } else if i == 2 {
      } else if i == 3 {
      } else if i == 5 {
      } else {
      }
    }
    LocateAt(Intersections, END, Position(4, 11));
  }

  const IntersectionsMoves: seq<Direction> :=
    [Down, Down, Down, Right]
    + [Right, Right, Right, Right]
    + [Right, Right, Up, Up]
    + [Left, Left, Left, Left]
    + [Left, Down, Down, Down]
    + [Down, Down, Right, Right]
    + [Right, Right, Right, Right]
    + [Right, Up, Up]

  lemma IntersectionsMove0()
    ensures Moves(Resolve, Intersections, Position(0, 2), None, Down)
  {
    SetsOff(Intersections, Position(0, 2), Down);
  }

  lemma IntersectionsMove1()
    ensures Moves(Resolve, Intersections, Position(1, 2), Some(Down), Down)
  {
    KeepsHeading(Intersections, Position(1, 2), Down, "|");
  }

  lemma IntersectionsMove2()
    ensures Moves(Resolve, Intersections, Position(2, 2), Some(Down), Down)
  {
    KeepsHeading(Intersections, Position(2, 2), Down, "A");
  }

  lemma IntersectionsMove3()
    ensures Moves(Resolve, Intersections, Position(3, 2), Some(Down), Right)
  {
    TurnsTo(Intersections, Position(3, 2), Down, Right);
  }

  lemma IntersectionsMove4()
    ensures Moves(Resolve, Intersections, Position(3, 3), Some(Right), Right)
  {
    KeepsHeading(Intersections, Position(3, 3), Right, "-");
  }

  lemma IntersectionsMove5()
    ensures Moves(Resolve, Intersections, Position(3, 4), Some(Right), Right)
  {
    KeepsHeading(Intersections, Position(3, 4), Right, "-");
  }

  lemma IntersectionsMove6()
    ensures Moves(Resolve, Intersections, Position(3, 5), Some(Right), Right)
  {
    KeepsHeading(Intersections, Position(3, 5), Right, "-");
  }

  lemma IntersectionsMove7()
    ensures Moves(Resolve, Intersections, Position(3, 6), Some(Right), Right)
  {
    KeepsHeading(Intersections, Position(3, 6), Right, "B");
  }

  lemma IntersectionsMove8()
    ensures Moves(Resolve, Intersections, Position(3, 7), Some(Right), Right)
  {
    KeepsHeading(Intersections, Position(3, 7), Right, "-");
  }

  lemma IntersectionsMove9()
    ensures Moves(Resolve, Intersections, Position(3, 8), Some(Right), Right)
  {
    KeepsHeading(Intersections, Position(3, 8), Right, "-");
  }

  lemma IntersectionsMove10()
    ensures Moves(Resolve, Intersections, Position(3, 9), Some(Right), Up)
  {
    TurnsTo(Intersections, Position(3, 9), Right, Up);
  }

  lemma IntersectionsMove11()
    ensures Moves(Resolve, Intersections, Position(2, 9), Some(Up), Up)
  {
    KeepsHeading(Intersections, Position(2, 9), Up, "|");
  }

  lemma IntersectionsMove12()
    ensures Moves(Resolve, Intersections, Position(1, 9), Some(Up), Left)
  {
    TurnsTo(Intersections, Position(1, 9), Up, Left);
  }

  lemma IntersectionsMove13()
    ensures Moves(Resolve, Intersections, Position(1, 8), Some(Left), Left)
  {
    KeepsHeading(Intersections, Position(1, 8), Left, "-");
  }

  lemma IntersectionsMove14()
    ensures Moves(Resolve, Intersections, Position(1, 7), Some(Left), Left)
  {
    KeepsHeading(Intersections, Position(1, 7), Left, "-");
  }

  lemma IntersectionsMove15()
    ensures Moves(Resolve, Intersections, Position(1, 6), Some(Left), Left)
  {
    KeepsHeading(Intersections, Position(1, 6), Left, "C");
  }

  lemma IntersectionsMove16()
    ensures Moves(Resolve, Intersections, Position(1, 5), Some(Left), Left)
  {
    KeepsHeading(Intersections, Position(1, 5), Left, "-");
  }

  lemma IntersectionsMove17()
    ensures Moves(Resolve, Intersections, Position(1, 4), Some(Left), Down)
  {
    TurnsTo(Intersections, Position(1, 4), Left, Down);
  }

  lemma IntersectionsMove18()
    ensures Moves(Resolve, Intersections, Position(2, 4), Some(Down), Down)
  {
    KeepsHeading(Intersections, Position(2, 4), Down, "|");
  }

  lemma IntersectionsMove19()
    ensures Moves(Resolve, Intersections, Position(3, 4), Some(Down), Down)
  {
    KeepsHeading(Intersections, Position(3, 4), Down, "-");
  }

  lemma IntersectionsMove20()
    ensures Moves(Resolve, Intersections, Position(4, 4), Some(Down), Down)
  {
    KeepsHeading(Intersections, Position(4, 4), Down, "|");
  }

  lemma IntersectionsMove21()
    ensures Moves(Resolve, Intersections, Position(5, 4), Some(Down), Down)
  {
    KeepsHeading(Intersections, Position(5, 4), Down, "|");
  }

  lemma IntersectionsMove22()
    ensures Moves(Resolve, Intersections, Position(6, 4), Some(Down), Right)
  {
    TurnsTo(Intersections, Position(6, 4), Down, Right);
  }

  lemma IntersectionsMove23()
    ensures Moves(Resolve, Intersections, Position(6, 5), Some(Right), Right)
  {
    KeepsHeading(Intersections, Position(6, 5), Right, "-");
  }

  lemma IntersectionsMove24()
    ensures Moves(Resolve, Intersections, Position(6, 6), Some(Right), Right)
  {
    KeepsHeading(Intersections, Position(6, 6), Right, "-");
  }

  lemma IntersectionsMove25()
    ensures Moves(Resolve, Intersections, Position(6, 7), Some(Right), Right)
  {
    KeepsHeading(Intersections, Position(6, 7), Right, "-");
  }

  lemma IntersectionsMove26()
    ensures Moves(Resolve, Intersections, Position(6, 8), Some(Right), Right)
  {
    KeepsHeading(Intersections, Position(6, 8), Right, "D");
  }

  lemma IntersectionsMove27()
    ensures Moves(Resolve, Intersections, Position(6, 9), Some(Right), Right)
  {
    KeepsHeading(Intersections, Position(6, 9), Right, "-");
  }

  lemma IntersectionsMove28()
    ensures Moves(Resolve, Intersections, Position(6, 10), Some(Right), Right)
  {
    KeepsHeading(Intersections, Position(6, 10), Right, "-");
  }

  lemma IntersectionsMove29()
    ensures Moves(Resolve, Intersections, Position(6, 11), Some(Right), Up)
  {
    TurnsTo(Intersections, Position(6, 11), Right, Up);
  }

  lemma IntersectionsMove30()
    ensures Moves(Resolve, Intersections, Position(5, 11), Some(Up), Up)
  {
    KeepsHeading(Intersections, Position(5, 11), Up, "|");
  }

  lemma IntersectionsLeg0()
    ensures Follows(Resolve, Intersections, Position(0, 2), None, [Down, Down, Down, Right])
  {
    assert Follows(Resolve, Intersections, Position(3, 2), Some(Down), [Right]) by {
      IntersectionsMove3();
    }
    assert Follows(Resolve, Intersections, Position(2, 2), Some(Down), [Down, Right]) by {
      IntersectionsMove2();
    }
    assert Follows(Resolve, Intersections, Position(1, 2), Some(Down), [Down, Down, Right]) by {
      IntersectionsMove1();
    }
    IntersectionsMove0();
  }

  lemma IntersectionsLegEnd0()
    ensures End(Position(0, 2), [Down, Down, Down, Right]) == Position(3, 3)
  {
  }

  lemma IntersectionsLeg1()
    ensures Follows(Resolve, Intersections, Position(3, 3), Some(Right), [Right, Right, Right,
        Right])
  {
    assert Follows(Resolve, Intersections, Position(3, 6), Some(Right), [Right]) by {
      IntersectionsMove7();
    }
    assert Follows(Resolve, Intersections, Position(3, 5), Some(Right), [Right, Right]) by {
      IntersectionsMove6();
    }
    assert Follows(Resolve, Intersections, Position(3, 4), Some(Right), [Right, Right, Right]) by {
      IntersectionsMove5();
    }
    IntersectionsMove4();
  }

  lemma IntersectionsLegEnd1()
    ensures End(Position(3, 3), [Right, Right, Right, Right]) == Position(3, 7)
  {
  }

  lemma IntersectionsLeg2()
    ensures Follows(Resolve, Intersections, Position(3, 7), Some(Right), [Right, Right, Up, Up])
  {
    assert Follows(Resolve, Intersections, Position(2, 9), Some(Up), [Up]) by {
      IntersectionsMove11();
    }
    assert Follows(Resolve, Intersections, Position(3, 9), Some(Right), [Up, Up]) by {
      IntersectionsMove10();
    }
    assert Follows(Resolve, Intersections, Position(3, 8), Some(Right), [Right, Up, Up]) by {
      IntersectionsMove9();
    }
    IntersectionsMove8();
  }

  lemma IntersectionsLegEnd2()
    ensures End(Position(3, 7), [Right, Right, Up, Up]) == Position(1, 9)
  {
  }

  lemma IntersectionsLeg3()
    ensures Follows(Resolve, Intersections, Position(1, 9), Some(Up), [Left, Left, Left, Left])
  {
    assert Follows(Resolve, Intersections, Position(1, 6), Some(Left), [Left]) by {
      IntersectionsMove15();
    }
    assert Follows(Resolve, Intersections, Position(1, 7), Some(Left), [Left, Left]) by {
      IntersectionsMove14();
    }
    assert Follows(Resolve, Intersections, Position(1, 8), Some(Left), [Left, Left, Left]) by {
      IntersectionsMove13();
    }
    IntersectionsMove12();
  }

  lemma IntersectionsLegEnd3()
    ensures End(Position(1, 9), [Left, Left, Left, Left]) == Position(1, 5)
  {
  }

  lemma IntersectionsLeg4()
    ensures Follows(Resolve, Intersections, Position(1, 5), Some(Left), [Left, Down, Down, Down])
  {
    assert Follows(Resolve, Intersections, Position(3, 4), Some(Down), [Down]) by {
      IntersectionsMove19();
    }
    assert Follows(Resolve, Intersections, Position(2, 4), Some(Down), [Down, Down]) by {
      IntersectionsMove18();
    }
    assert Follows(Resolve, Intersections, Position(1, 4), Some(Left), [Down, Down, Down]) by {
      IntersectionsMove17();
    }
    IntersectionsMove16();
  }

  lemma IntersectionsLegEnd4()
    ensures End(Position(1, 5), [Left, Down, Down, Down]) == Position(4, 4)
  {
  }

  lemma IntersectionsLeg5()
    ensures Follows(Resolve, Intersections, Position(4, 4), Some(Down), [Down, Down, Right, Right])
  {
    assert Follows(Resolve, Intersections, Position(6, 5), Some(Right), [Right]) by {
      IntersectionsMove23();
    }
    assert Follows(Resolve, Intersections, Position(6, 4), Some(Down), [Right, Right]) by {
      IntersectionsMove22();
    }
    assert Follows(Resolve, Intersections, Position(5, 4), Some(Down), [Down, Right, Right]) by {
      IntersectionsMove21();
    }
    IntersectionsMove20();
  }

  lemma IntersectionsLegEnd5()
    ensures End(Position(4, 4), [Down, Down, Right, Right]) == Position(6, 6)
  {
  }

  lemma IntersectionsLeg6()
    ensures Follows(Resolve, Intersections, Position(6, 6), Some(Right), [Right, Right, Right,
        Right])
  {
    assert Follows(Resolve, Intersections, Position(6, 9), Some(Right), [Right]) by {
      IntersectionsMove27();
    }
    assert Follows(Resolve, Intersections, Position(6, 8), Some(Right), [Right, Right]) by {
      IntersectionsMove26();
    }
    assert Follows(Resolve, Intersections, Position(6, 7), Some(Right), [Right, Right, Right]) by {
      IntersectionsMove25();
    }
    IntersectionsMove24();
  }

  lemma IntersectionsLegEnd6()
    ensures End(Position(6, 6), [Right, Right, Right, Right]) == Position(6, 10)
  {
  }

  lemma IntersectionsLeg7()
    ensures Follows(Resolve, Intersections, Position(6, 10), Some(Right), [Right, Up, Up])
  {
    assert Follows(Resolve, Intersections, Position(5, 11), Some(Up), [Up]) by {
      IntersectionsMove30();
    }
    assert Follows(Resolve, Intersections, Position(6, 11), Some(Right), [Up, Up]) by {
      IntersectionsMove29();
    }
    IntersectionsMove28();
  }

  lemma IntersectionsLegEnd7()
    ensures End(Position(6, 10), [Right, Up, Up]) == Position(4, 11)
  {
  }

  lemma IntersectionsArrive1()
    ensures End(Position(0, 2), [Down, Down, Down, Right] + [Right, Right, Right, Right])
        == Position(3, 7)
  {
    IntersectionsLegEnd0();
    IntersectionsLegEnd1();
    StepsJoin(Position(0, 2), [Down, Down, Down, Right], Position(3, 3), [Right, Right, Right,
        Right]);
  }

  lemma IntersectionsWalk1()
    ensures Follows(Resolve, Intersections, Position(0, 2), None, [Down, Down, Down, Right] + [Right,
        Right, Right, Right])
  {
    IntersectionsLeg0();
    IntersectionsLegEnd0();
    IntersectionsLeg1();
    FollowsJoin(Resolve, Intersections, Position(0, 2), None, [Down, Down, Down, Right],
        Position(3, 3), [Right, Right, Right, Right]);
  }

  lemma IntersectionsArrive2()
    ensures End(Position(0, 2), [Down, Down, Down, Right] + [Right, Right, Right, Right] + [Right,
        Right, Up, Up]) == Position(1, 9)
  {
    IntersectionsArrive1();
    IntersectionsLegEnd2();
    StepsJoin(Position(0, 2), [Down, Down, Down, Right] + [Right, Right, Right, Right],
        Position(3, 7), [Right, Right, Up, Up]);
  }

  lemma IntersectionsWalk2()
    ensures Follows(Resolve, Intersections, Position(0, 2), None, [Down, Down, Down, Right] + [Right,
        Right, Right, Right] + [Right, Right, Up, Up])
  {
    IntersectionsWalk1();
    IntersectionsArrive1();
    IntersectionsLeg2();
    FollowsJoin(Resolve, Intersections, Position(0, 2), None, [Down, Down, Down, Right] + [Right,
        Right, Right, Right], Position(3, 7), [Right, Right, Up, Up]);
  }

  lemma IntersectionsArrive3()
    ensures End(Position(0, 2), [Down, Down, Down, Right] + [Right, Right, Right, Right] + [Right,
        Right, Up, Up] + [Left, Left, Left, Left]) == Position(1, 5)
  {
    IntersectionsArrive2();
    IntersectionsLegEnd3();
    StepsJoin(Position(0, 2), [Down, Down, Down, Right] + [Right, Right, Right, Right] + [Right,
        Right, Up, Up], Position(1, 9), [Left, Left, Left, Left]);
  }

  lemma IntersectionsWalk3()
    ensures Follows(Resolve, Intersections, Position(0, 2), None, [Down, Down, Down, Right] + [Right,
        Right, Right, Right] + [Right, Right, Up, Up] + [Left, Left, Left, Left])
  {
    IntersectionsWalk2();
    IntersectionsArrive2();
    IntersectionsLeg3();
    FollowsJoin(Resolve, Intersections, Position(0, 2), None, [Down, Down, Down, Right] + [Right,
        Right, Right, Right] + [Right, Right, Up, Up], Position(1, 9), [Left, Left, Left, Left]);
  }

  lemma IntersectionsArrive4()
    ensures End(Position(0, 2), [Down, Down, Down, Right] + [Right, Right, Right, Right] + [Right,
        Right, Up, Up] + [Left, Left, Left, Left] + [Left, Down, Down, Down]) == Position(4, 4)
  {
    IntersectionsArrive3();
    IntersectionsLegEnd4();
    StepsJoin(Position(0, 2), [Down, Down, Down, Right] + [Right, Right, Right, Right] + [Right,
        Right, Up, Up] + [Left, Left, Left, Left], Position(1, 5), [Left, Down, Down, Down]);
  }

  lemma IntersectionsWalk4()
    ensures Follows(Resolve, Intersections, Position(0, 2), None, [Down, Down, Down, Right] + [Right,
        Right, Right, Right] + [Right, Right, Up, Up] + [Left, Left, Left, Left] + [Left, Down,
        Down, Down])
  {
    IntersectionsWalk3();
    IntersectionsArrive3();
    IntersectionsLeg4();
    FollowsJoin(Resolve, Intersections, Position(0, 2), None, [Down, Down, Down, Right] + [Right,
        Right, Right, Right] + [Right, Right, Up, Up] + [Left, Left, Left, Left], Position(1, 5),
        [Left, Down, Down, Down]);
  }

  lemma IntersectionsArrive5()
    ensures End(Position(0, 2), [Down, Down, Down, Right] + [Right, Right, Right, Right] + [Right,
        Right, Up, Up] + [Left, Left, Left, Left] + [Left, Down, Down, Down] + [Down, Down, Right,
        Right]) == Position(6, 6)
  {
    IntersectionsArrive4();
    IntersectionsLegEnd5();
    StepsJoin(Position(0, 2), [Down, Down, Down, Right] + [Right, Right, Right, Right] + [Right,
        Right, Up, Up] + [Left, Left, Left, Left] + [Left, Down, Down, Down], Position(4, 4), [Down,
        Down, Right, Right]);
  }

  lemma IntersectionsWalk5()
    ensures Follows(Resolve, Intersections, Position(0, 2), None, [Down, Down, Down, Right] + [Right,
        Right, Right, Right] + [Right, Right, Up, Up] + [Left, Left, Left, Left] + [Left, Down,
        Down, Down] + [Down, Down, Right, Right])
  {
    IntersectionsWalk4();
    IntersectionsArrive4();
    IntersectionsLeg5();
    FollowsJoin(Resolve, Intersections, Position(0, 2), None, [Down, Down, Down, Right] + [Right,
        Right, Right, Right] + [Right, Right, Up, Up] + [Left, Left, Left, Left] + [Left, Down,
        Down, Down], Position(4, 4), [Down, Down, Right, Right]);
  }

  lemma IntersectionsArrive6()
    ensures End(Position(0, 2), [Down, Down, Down, Right] + [Right, Right, Right, Right] + [Right,
        Right, Up, Up] + [Left, Left, Left, Left] + [Left, Down, Down, Down] + [Down, Down, Right,
        Right] + [Right, Right, Right, Right]) == Position(6, 10)
  {
    IntersectionsArrive5();
    IntersectionsLegEnd6();
    StepsJoin(Position(0, 2), [Down, Down, Down, Right] + [Right, Right, Right, Right] + [Right,
        Right, Up, Up] + [Left, Left, Left, Left] + [Left, Down, Down, Down] + [Down, Down, Right,
        Right], Position(6, 6), [Right, Right, Right, Right]);
  }

  lemma IntersectionsWalk6()
    ensures Follows(Resolve, Intersections, Position(0, 2), None, [Down, Down, Down, Right] + [Right,
        Right, Right, Right] + [Right, Right, Up, Up] + [Left, Left, Left, Left] + [Left, Down,
        Down, Down] + [Down, Down, Right, Right] + [Right, Right, Right, Right])
  {
    IntersectionsWalk5();
    IntersectionsArrive5();
    IntersectionsLeg6();
    FollowsJoin(Resolve, Intersections, Position(0, 2), None, [Down, Down, Down, Right] + [Right,
        Right, Right, Right] + [Right, Right, Up, Up] + [Left, Left, Left, Left] + [Left, Down,
        Down, Down] + [Down, Down, Right, Right], Position(6, 6), [Right, Right, Right, Right]);
  }

  lemma IntersectionsArrive7()
    ensures End(Position(0, 2), [Down, Down, Down, Right] + [Right, Right, Right, Right] + [Right,
        Right, Up, Up] + [Left, Left, Left, Left] + [Left, Down, Down, Down] + [Down, Down, Right,
        Right] + [Right, Right, Right, Right] + [Right, Up, Up]) == Position(4, 11)
  {
    IntersectionsArrive6();
    IntersectionsLegEnd7();
    StepsJoin(Position(0, 2), [Down, Down, Down, Right] + [Right, Right, Right, Right] + [Right,
        Right, Up, Up] + [Left, Left, Left, Left] + [Left, Down, Down, Down] + [Down, Down, Right,
        Right] + [Right, Right, Right, Right], Position(6, 10), [Right, Up, Up]);
  }

  lemma IntersectionsWalk7()
    ensures Follows(Resolve, Intersections, Position(0, 2), None, [Down, Down, Down, Right] + [Right,
        Right, Right, Right] + [Right, Right, Up, Up] + [Left, Left, Left, Left] + [Left, Down,
        Down, Down] + [Down, Down, Right, Right] + [Right, Right, Right, Right] + [Right, Up, Up])
  {
    IntersectionsWalk6();
    IntersectionsArrive6();
    IntersectionsLeg7();
    FollowsJoin(Resolve, Intersections, Position(0, 2), None, [Down, Down, Down, Right] + [Right,
        Right, Right, Right] + [Right, Right, Up, Up] + [Left, Left, Left, Left] + [Left, Down,
        Down, Down] + [Down, Down, Right, Right] + [Right, Right, Right, Right], Position(6, 10),
        [Right, Up, Up]);
  }

  lemma IntersectionsBound()
    ensures |IntersectionsMoves| < StepBound(Intersections)
  {
    FieldCountCoversRow(Intersections, 4);
  }

  lemma IntersectionsLegSteps0()
    ensures Steps(Position(0, 2), [Down, Down, Down, Right]) == [Position(1, 2), Position(2, 2),
        Position(3, 2), Position(3, 3)]
  {
  }

  lemma IntersectionsLegText0()
    ensures Text(Intersections, [Position(1, 2), Position(2, 2), Position(3, 2), Position(3, 3)])
        == "|A+-"
  {
  }

  lemma IntersectionsLegLetters0()
    ensures LetterPositions(Intersections, [Position(1, 2), Position(2, 2), Position(3, 2),
        Position(3, 3)]) == [Position(2, 2)]
  {
  }

  lemma IntersectionsLegSteps1()
    ensures Steps(Position(3, 3), [Right, Right, Right, Right]) == [Position(3, 4), Position(3, 5),
        Position(3, 6), Position(3, 7)]
  {
  }

  lemma IntersectionsLegText1()
    ensures Text(Intersections, [Position(3, 4), Position(3, 5), Position(3, 6), Position(3, 7)])
        == "--B-"
  {
  }

  lemma IntersectionsLegLetters1()
    ensures LetterPositions(Intersections, [Position(3, 4), Position(3, 5), Position(3, 6),
        Position(3, 7)]) == [Position(3, 6)]
  {
  }

  lemma IntersectionsLegSteps2()
    ensures Steps(Position(3, 7), [Right, Right, Up, Up]) == [Position(3, 8), Position(3, 9),
        Position(2, 9), Position(1, 9)]
  {
  }

  lemma IntersectionsLegText2()
    ensures Text(Intersections, [Position(3, 8), Position(3, 9), Position(2, 9), Position(1, 9)])
        == "-+|+"
  {
  }

  lemma IntersectionsLegLetters2()
    ensures LetterPositions(Intersections, [Position(3, 8), Position(3, 9), Position(2, 9),
        Position(1, 9)]) == []
  {
  }

  lemma IntersectionsLegSteps3()
    ensures Steps(Position(1, 9), [Left, Left, Left, Left]) == [Position(1, 8), Position(1, 7),
        Position(1, 6), Position(1, 5)]
  {
  }

  lemma IntersectionsLegText3()
    ensures Text(Intersections, [Position(1, 8), Position(1, 7), Position(1, 6), Position(1, 5)])
        == "--C-"
  {
  }

  lemma IntersectionsLegLetters3()
    ensures LetterPositions(Intersections, [Position(1, 8), Position(1, 7), Position(1, 6),
        Position(1, 5)]) == [Position(1, 6)]
  {
  }

  lemma IntersectionsLegSteps4()
    ensures Steps(Position(1, 5), [Left, Down, Down, Down]) == [Position(1, 4), Position(2, 4),
        Position(3, 4), Position(4, 4)]
  {
  }

  lemma IntersectionsLegText4()
    ensures Text(Intersections, [Position(1, 4), Position(2, 4), Position(3, 4), Position(4, 4)])
        == "+|-|"
  {
  }

  lemma IntersectionsLegLetters4()
    ensures LetterPositions(Intersections, [Position(1, 4), Position(2, 4), Position(3, 4),
        Position(4, 4)]) == []
  {
  }

  lemma IntersectionsLegSteps5()
    ensures Steps(Position(4, 4), [Down, Down, Right, Right]) == [Position(5, 4), Position(6, 4),
        Position(6, 5), Position(6, 6)]
  {
  }

  lemma IntersectionsLegText5()
    ensures Text(Intersections, [Position(5, 4), Position(6, 4), Position(6, 5), Position(6, 6)])
        == "|+--"
  {
  }

  lemma IntersectionsLegLetters5()
    ensures LetterPositions(Intersections, [Position(5, 4), Position(6, 4), Position(6, 5),
        Position(6, 6)]) == []
  {
  }

  lemma IntersectionsLegSteps6()
    ensures Steps(Position(6, 6), [Right, Right, Right, Right]) == [Position(6, 7), Position(6, 8),
        Position(6, 9), Position(6, 10)]
  {
  }

  lemma IntersectionsLegText6()
    ensures Text(Intersections, [Position(6, 7), Position(6, 8), Position(6, 9), Position(6, 10)])
        == "-D--"
  {
  }

  lemma IntersectionsLegLetters6()
    ensures LetterPositions(Intersections, [Position(6, 7), Position(6, 8), Position(6, 9),
        Position(6, 10)]) == [Position(6, 8)]
  {
  }

  lemma IntersectionsLegSteps7()
    ensures Steps(Position(6, 10), [Right, Up, Up]) == [Position(6, 11), Position(5, 11),
        Position(4, 11)]
  {
  }

  lemma IntersectionsLegText7()
    ensures Text(Intersections, [Position(6, 11), Position(5, 11), Position(4, 11)]) == "+|x"
  {
  }

  lemma IntersectionsLegLetters7()
    ensures LetterPositions(Intersections, [Position(6, 11), Position(5, 11), Position(4, 11)]) == []
  {
  }

  lemma IntersectionsRoute0()
    ensures Text(Intersections, [Position(0, 2)] + Steps(Position(0, 2), [Down, Down, Down, Right]))
        == "@|A+-"
    ensures LetterPositions(Intersections, [Position(0, 2)] + Steps(Position(0, 2), [Down, Down, Down,
        Right])) == [Position(2, 2)]
  {
    IntersectionsLegSteps0();
    IntersectionsLegText0();
    IntersectionsLegLetters0();
    TextConcat(Intersections, [Position(0, 2)], [Position(1, 2), Position(2, 2), Position(3, 2),
        Position(3, 3)]);
    LetterPositionsAppend(Intersections, [Position(0, 2)], [Position(1, 2), Position(2, 2),
        Position(3, 2), Position(3, 3)]);
    IntersectionsJoin0();
  }

  lemma IntersectionsJoin0()
    ensures "@" + "|A+-" == "@|A+-"
  {
  }

  lemma IntersectionsRoute1()
    ensures Text(Intersections, [Position(0, 2)] + Steps(Position(0, 2), [Down, Down, Down, Right]
        + [Right, Right, Right, Right])) == "@|A+---B-"
    ensures LetterPositions(Intersections, [Position(0, 2)] + Steps(Position(0, 2), [Down, Down, Down,
        Right] + [Right, Right, Right, Right])) == [Position(2, 2), Position(3, 6)]
  {
    IntersectionsLegSteps1();
    IntersectionsLegText1();
    IntersectionsLegLetters1();
    IntersectionsRoute0();
    IntersectionsLegEnd0();
    RouteJoin(Intersections, Position(0, 2), [Down, Down, Down, Right], Position(3, 3), [Right, Right,
        Right, Right]);
    IntersectionsJoin1();
  }

  lemma IntersectionsJoin1()
    ensures "@|A+-" + "--B-" == "@|A+---B-"
    ensures [Position(2, 2)] + [Position(3, 6)] == [Position(2, 2), Position(3, 6)]
  {
  }

  lemma IntersectionsRoute2()
    ensures Text(Intersections, [Position(0, 2)] + Steps(Position(0, 2), [Down, Down, Down, Right]
        + [Right, Right, Right, Right] + [Right, Right, Up, Up])) == "@|A+---B--+|+"
    ensures LetterPositions(Intersections, [Position(0, 2)] + Steps(Position(0, 2), [Down, Down, Down,
        Right] + [Right, Right, Right, Right] + [Right, Right, Up, Up])) == [Position(2, 2),
        Position(3, 6)]
  {
    IntersectionsLegSteps2();
    IntersectionsLegText2();
    IntersectionsLegLetters2();
    IntersectionsRoute1();
    IntersectionsArrive1();
    RouteJoin(Intersections, Position(0, 2), [Down, Down, Down, Right] + [Right, Right, Right,
        Right], Position(3, 7), [Right, Right, Up, Up]);
    IntersectionsJoin2();
  }

  lemma IntersectionsJoin2()
    ensures "@|A+---B-" + "-+|+" == "@|A+---B--+|+"
  {
  }

  lemma IntersectionsRoute3()
    ensures Text(Intersections, [Position(0, 2)] + Steps(Position(0, 2), [Down, Down, Down, Right]
        + [Right, Right, Right, Right] + [Right, Right, Up, Up] + [Left, Left, Left, Left]))
        == "@|A+---B--+|+--C-"
    ensures LetterPositions(Intersections, [Position(0, 2)] + Steps(Position(0, 2), [Down, Down, Down,
        Right] + [Right, Right, Right, Right] + [Right, Right, Up, Up] + [Left, Left, Left, Left]))
        == [Position(2, 2), Position(3, 6), Position(1, 6)]
  {
    IntersectionsLegSteps3();
    IntersectionsLegText3();
    IntersectionsLegLetters3();
    IntersectionsRoute2();
    IntersectionsArrive2();
    RouteJoin(Intersections, Position(0, 2), [Down, Down, Down, Right] + [Right, Right, Right, Right]
        + [Right, Right, Up, Up], Position(1, 9), [Left, Left, Left, Left]);
    IntersectionsJoin3();
  }

  lemma IntersectionsJoin3()
    ensures "@|A+---B--+|+" + "--C-" == "@|A+---B--+|+--C-"
    ensures [Position(2, 2), Position(3, 6)] + [Position(1, 6)] == [Position(2, 2), Position(3, 6),
        Position(1, 6)]
  {
  }

  lemma IntersectionsRoute4()
    ensures Text(Intersections, [Position(0, 2)] + Steps(Position(0, 2), [Down, Down, Down, Right]
        + [Right, Right, Right, Right] + [Right, Right, Up, Up] + [Left, Left, Left, Left] + [Left,
        Down, Down, Down])) == "@|A+---B--+|+--C-+|-|"
    ensures LetterPositions(Intersections, [Position(0, 2)] + Steps(Position(0, 2), [Down, Down, Down,
        Right] + [Right, Right, Right, Right] + [Right, Right, Up, Up] + [Left, Left, Left, Left]
        + [Left, Down, Down, Down])) == [Position(2, 2), Position(3, 6), Position(1, 6)]
  {
    IntersectionsLegSteps4();
    IntersectionsLegText4();
    IntersectionsLegLetters4();
    IntersectionsRoute3();
    IntersectionsArrive3();
    RouteJoin(Intersections, Position(0, 2), [Down, Down, Down, Right] + [Right, Right, Right, Right]
        + [Right, Right, Up, Up] + [Left, Left, Left, Left], Position(1, 5), [Left, Down, Down,
        Down]);
    IntersectionsJoin4();
  }

  lemma IntersectionsJoin4()
    ensures "@|A+---B--+|+--C-" + "+|-|" == "@|A+---B--+|+--C-+|-|"
  {
  }

  lemma IntersectionsRoute5()
    ensures Text(Intersections, [Position(0, 2)] + Steps(Position(0, 2), [Down, Down, Down, Right]
        + [Right, Right, Right, Right] + [Right, Right, Up, Up] + [Left, Left, Left, Left] + [Left,
        Down, Down, Down] + [Down, Down, Right, Right])) == "@|A+---B--+|+--C-+|-||+--"
    ensures LetterPositions(Intersections, [Position(0, 2)] + Steps(Position(0, 2), [Down, Down, Down,
        Right] + [Right, Right, Right, Right] + [Right, Right, Up, Up] + [Left, Left, Left, Left]
        + [Left, Down, Down, Down] + [Down, Down, Right, Right])) == [Position(2, 2), Position(3, 6),
        Position(1, 6)]
  {
    IntersectionsLegSteps5();
    IntersectionsLegText5();
    IntersectionsLegLetters5();
    IntersectionsRoute4();
    IntersectionsArrive4();
    RouteJoin(Intersections, Position(0, 2), [Down, Down, Down, Right] + [Right, Right, Right, Right]
        + [Right, Right, Up, Up] + [Left, Left, Left, Left] + [Left, Down, Down, Down],
        Position(4, 4), [Down, Down, Right, Right]);
    IntersectionsJoin5();
  }

  lemma IntersectionsJoin5()
    ensures "@|A+---B--+|+--C-+|-|" + "|+--" == "@|A+---B--+|+--C-+|-||+--"
  {
  }

  lemma IntersectionsRoute6()
    ensures Text(Intersections, [Position(0, 2)] + Steps(Position(0, 2), [Down, Down, Down, Right]
        + [Right, Right, Right, Right] + [Right, Right, Up, Up] + [Left, Left, Left, Left] + [Left,
        Down, Down, Down] + [Down, Down, Right, Right] + [Right, Right, Right, Right]))
        == "@|A+---B--+|+--C-+|-||+---D--"
    ensures LetterPositions(Intersections, [Position(0, 2)] + Steps(Position(0, 2), [Down, Down, Down,
        Right] + [Right, Right, Right, Right] + [Right, Right, Up, Up] + [Left, Left, Left, Left]
        + [Left, Down, Down, Down] + [Down, Down, Right, Right] + [Right, Right, Right, Right]))
        == [Position(2, 2), Position(3, 6), Position(1, 6), Position(6, 8)]
  {
    IntersectionsLegSteps6();
    IntersectionsLegText6();
    IntersectionsLegLetters6();
    IntersectionsRoute5();
    IntersectionsArrive5();
    RouteJoin(Intersections, Position(0, 2), [Down, Down, Down, Right] + [Right, Right, Right, Right]
        + [Right, Right, Up, Up] + [Left, Left, Left, Left] + [Left, Down, Down, Down] + [Down,
        Down, Right, Right], Position(6, 6), [Right, Right, Right, Right]);
    IntersectionsJoin6();
  }

  lemma IntersectionsJoin6()
    ensures "@|A+---B--+|+--C-+|-||+--" + "-D--" == "@|A+---B--+|+--C-+|-||+---D--"
    ensures [Position(2, 2), Position(3, 6), Position(1, 6)] + [Position(6, 8)] == [Position(2, 2),
        Position(3, 6), Position(1, 6), Position(6, 8)]
  {
  }

  lemma IntersectionsRoute7()
    ensures Text(Intersections, [Position(0, 2)] + Steps(Position(0, 2), [Down, Down, Down, Right]
        + [Right, Right, Right, Right] + [Right, Right, Up, Up] + [Left, Left, Left, Left] + [Left,
        Down, Down, Down] + [Down, Down, Right, Right] + [Right, Right, Right, Right] + [Right, Up,
        Up])) == "@|A+---B--+|+--C-+|-||+---D--+|x"
    ensures LetterPositions(Intersections, [Position(0, 2)] + Steps(Position(0, 2), [Down, Down, Down,
        Right] + [Right, Right, Right, Right] + [Right, Right, Up, Up] + [Left, Left, Left, Left]
        + [Left, Down, Down, Down] + [Down, Down, Right, Right] + [Right, Right, Right, Right]
        + [Right, Up, Up])) == [Position(2, 2), Position(3, 6), Position(1, 6), Position(6, 8)]
  {
    IntersectionsLegSteps7();
    IntersectionsLegText7();
    IntersectionsLegLetters7();
    IntersectionsRoute6();
    IntersectionsArrive6();
    RouteJoin(Intersections, Position(0, 2), [Down, Down, Down, Right] + [Right, Right, Right, Right]
        + [Right, Right, Up, Up] + [Left, Left, Left, Left] + [Left, Down, Down, Down] + [Down,
        Down, Right, Right] + [Right, Right, Right, Right], Position(6, 10), [Right, Up, Up]);
    IntersectionsJoin7();
  }

  lemma IntersectionsJoin7()
    ensures "@|A+---B--+|+--C-+|-||+---D--" + "+|x" == "@|A+---B--+|+--C-+|-||+---D--+|x"
  {
  }

  lemma IntersectionsDedup()
    ensures Dedup([Position(2, 2), Position(3, 6), Position(1, 6), Position(6, 8)]) == [Position(2, 2),
        Position(3, 6), Position(1, 6), Position(6, 8)]
  {
    var s := [Position(2, 2), Position(3, 6), Position(1, 6), Position(6, 8)];
    assert Firsts(s, 3) == [Position(6, 8)] + Firsts(s, 4);
    assert Firsts(s, 2) == [Position(1, 6)] + Firsts(s, 3);
    assert Firsts(s, 1) == [Position(3, 6)] + Firsts(s, 2);
    assert Firsts(s, 0) == [Position(2, 2)] + Firsts(s, 1);
  }

  lemma IntersectionsWord()
    ensures Text(Intersections, [Position(2, 2), Position(3, 6), Position(1, 6), Position(6, 8)])
        == "ABCD"
  {
  }

  /** The outcome test.js expects for "Go straight through intersections". */
  lemma IntersectionsExample()
    ensures FindPathSpec(Intersections) == Ok(PathResult("@|A+---B--+|+--C-+|-||+---D--+|x",
        "ABCD"))
  {
    IntersectionsStartLocated();
    IntersectionsEndLocated();
    IntersectionsWalk7();
    IntersectionsArrive7();
    IntersectionsBound();
    FindPathFollowing(Resolve, Intersections, Position(0, 2), IntersectionsMoves);
    IntersectionsRoute7();
    IntersectionsDedup();
    IntersectionsWord();
  }

  // test.js:48, "Glyphs may be found on turns"

  const LettersOnTurns: Grid := [
      ["@", "-", "-", "-", "A", "-", "-", "-", "+", " "],
      [" ", " ", " ", " ", " ", " ", " ", " ", "|"],
      ["x", "-", "B", "-", "+", " ", " ", " ", "|"],
      [" ", " ", " ", " ", "|", " ", " ", " ", "|"],
      [" ", " ", " ", " ", "+", "-", "-", "-", "C"]
    ]

  lemma LettersOnTurnsStartLocated()
    ensures Locate(LettersOnTurns, START) == Ok(Position(0, 0))
  {
    forall i | 0 <= i < |LettersOnTurns| && i != 0
      ensures START !in LettersOnTurns[i]
    {
      if i == 1 {
      } else if i == 2 {
      } else if i == 3 {
      } else {
      }
    }
    LocateAt(LettersOnTurns, START, Position(0, 0));
  }

  lemma LettersOnTurnsEndLocated()
    ensures Locate(LettersOnTurns, END) == Ok(Position(2, 0))
  {
    forall i | 0 <= i < |LettersOnTurns| && i != 2
      ensures END !in LettersOnTurns[i]
    {
      if i == 0 {
      } else if i == 1 {
      } else if i == 3 {
      } else {
      }
    }
    LocateAt(LettersOnTurns, END, Position(2, 0));
  }

  const LettersOnTurnsMoves: seq<Direction> :=
    [Right, Right, Right, Right]
    + [Right, Right, Right, Right]
    + [Down, Down, Down, Down]
    + [Left, Left, Left, Left]
    + [Up, Up, Left, Left]
    + [Left, Left]

  lemma LettersOnTurnsMove0()
    ensures Moves(Resolve, LettersOnTurns, Position(0, 0), None, Right)
  {
    SetsOff(LettersOnTurns, Position(0, 0), Right);
  }

  lemma LettersOnTurnsMove1()
    ensures Moves(Resolve, LettersOnTurns, Position(0, 1), Some(Right), Right)
  {
    KeepsHeading(LettersOnTurns, Position(0, 1), Right, "-");
  }

  lemma LettersOnTurnsMove2()
    ensures Moves(Resolve, LettersOnTurns, Position(0, 2), Some(Right), Right)
  {
    KeepsHeading(LettersOnTurns, Position(0, 2), Right, "-");
  }

  lemma LettersOnTurnsMove3()
    ensures Moves(Resolve, LettersOnTurns, Position(0, 3), Some(Right), Right)
  {
    KeepsHeading(LettersOnTurns, Position(0, 3), Right, "-");
  }

  lemma LettersOnTurnsMove4()
    ensures Moves(Resolve, LettersOnTurns, Position(0, 4), Some(Right), Right)
  {
    KeepsHeading(LettersOnTurns, Position(0, 4), Right, "A");
  }

  lemma LettersOnTurnsMove5()
    ensures Moves(Resolve, LettersOnTurns, Position(0, 5), Some(Right), Right)
  {
    KeepsHeading(LettersOnTurns, Position(0, 5), Right, "-");
  }

  lemma LettersOnTurnsMove6()
    ensures Moves(Resolve, LettersOnTurns, Position(0, 6), Some(Right), Right)
  {
    KeepsHeading(LettersOnTurns, Position(0, 6), Right, "-");
  }

  lemma LettersOnTurnsMove7()
    ensures Moves(Resolve, LettersOnTurns, Position(0, 7), Some(Right), Right)
  {
    KeepsHeading(LettersOnTurns, Position(0, 7), Right, "-");
  }

  lemma LettersOnTurnsMove8()
    ensures Moves(Resolve, LettersOnTurns, Position(0, 8), Some(Right), Down)
  {
    TurnsTo(LettersOnTurns, Position(0, 8), Right, Down);
  }

  lemma LettersOnTurnsMove9()
    ensures Moves(Resolve, LettersOnTurns, Position(1, 8), Some(Down), Down)
  {
    KeepsHeading(LettersOnTurns, Position(1, 8), Down, "|");
  }

  lemma LettersOnTurnsMove10()
    ensures Moves(Resolve, LettersOnTurns, Position(2, 8), Some(Down), Down)
  {
    KeepsHeading(LettersOnTurns, Position(2, 8), Down, "|");
  }

  lemma LettersOnTurnsMove11()
    ensures Moves(Resolve, LettersOnTurns, Position(3, 8), Some(Down), Down)
  {
    KeepsHeading(LettersOnTurns, Position(3, 8), Down, "|");
  }

  lemma LettersOnTurnsMove12()
    ensures Moves(Resolve, LettersOnTurns, Position(4, 8), Some(Down), Left)
  {
    BendsTo(LettersOnTurns, Position(4, 8), Down, "C", Left);
  }

  lemma LettersOnTurnsMove13()
    ensures Moves(Resolve, LettersOnTurns, Position(4, 7), Some(Left), Left)
  {
    KeepsHeading(LettersOnTurns, Position(4, 7), Left, "-");
  }

  lemma LettersOnTurnsMove14()
    ensures Moves(Resolve, LettersOnTurns, Position(4, 6), Some(Left), Left)
  {
    KeepsHeading(LettersOnTurns, Position(4, 6), Left, "-");
  }

  lemma LettersOnTurnsMove15()
    ensures Moves(Resolve, LettersOnTurns, Position(4, 5), Some(Left), Left)
  {
    KeepsHeading(LettersOnTurns, Position(4, 5), Left, "-");
  }

  lemma LettersOnTurnsMove16()
    ensures Moves(Resolve, LettersOnTurns, Position(4, 4), Some(Left), Up)
  {
    TurnsTo(LettersOnTurns, Position(4, 4), Left, Up);
  }

  lemma LettersOnTurnsMove17()
    ensures Moves(Resolve, LettersOnTurns, Position(3, 4), Some(Up), Up)
  {
    KeepsHeading(LettersOnTurns, Position(3, 4), Up, "|");
  }

  lemma LettersOnTurnsMove18()
    ensures Moves(Resolve, LettersOnTurns, Position(2, 4), Some(Up), Left)
  {
    TurnsTo(LettersOnTurns, Position(2, 4), Up, Left);
  }

  lemma LettersOnTurnsMove19()
    ensures Moves(Resolve, LettersOnTurns, Position(2, 3), Some(Left), Left)
  {
    KeepsHeading(LettersOnTurns, Position(2, 3), Left, "-");
  }

  lemma LettersOnTurnsMove20()
    ensures Moves(Resolve, LettersOnTurns, Position(2, 2), Some(Left), Left)
  {
    KeepsHeading(LettersOnTurns, Position(2, 2), Left, "B");
  }

  lemma LettersOnTurnsMove21()
    ensures Moves(Resolve, LettersOnTurns, Position(2, 1), Some(Left), Left)
  {
    KeepsHeading(LettersOnTurns, Position(2, 1), Left, "-");
  }

  lemma LettersOnTurnsLeg0()
    ensures Follows(Resolve, LettersOnTurns, Position(0, 0), None, [Right, Right, Right, Right])
  {
    assert Follows(Resolve, LettersOnTurns, Position(0, 3), Some(Right), [Right]) by {
      LettersOnTurnsMove3();
    }
    assert Follows(Resolve, LettersOnTurns, Position(0, 2), Some(Right), [Right, Right]) by {
      LettersOnTurnsMove2();
    }
    assert Follows(Resolve, LettersOnTurns, Position(0, 1), Some(Right), [Right, Right, Right]) by {
      LettersOnTurnsMove1();
    }
    LettersOnTurnsMove0();
  }

  lemma LettersOnTurnsLegEnd0()
    ensures End(Position(0, 0), [Right, Right, Right, Right]) == Position(0, 4)
  {
  }

  lemma LettersOnTurnsLeg1()
    ensures Follows(Resolve, LettersOnTurns, Position(0, 4), Some(Right), [Right, Right, Right,
        Right])
  {
    assert Follows(Resolve, LettersOnTurns, Position(0, 7), Some(Right), [Right]) by {
      LettersOnTurnsMove7();
    }
    assert Follows(Resolve, LettersOnTurns, Position(0, 6), Some(Right), [Right, Right]) by {
      LettersOnTurnsMove6();
    }
    assert Follows(Resolve, LettersOnTurns, Position(0, 5), Some(Right), [Right, Right, Right]) by {
      LettersOnTurnsMove5();
    }
    LettersOnTurnsMove4();
  }

  lemma LettersOnTurnsLegEnd1()
    ensures End(Position(0, 4), [Right, Right, Right, Right]) == Position(0, 8)
  {
  }

  lemma LettersOnTurnsLeg2()
    ensures Follows(Resolve, LettersOnTurns, Position(0, 8), Some(Right), [Down, Down, Down, Down])
  {
    assert Follows(Resolve, LettersOnTurns, Position(3, 8), Some(Down), [Down]) by {
      LettersOnTurnsMove11();
    }
    assert Follows(Resolve, LettersOnTurns, Position(2, 8), Some(Down), [Down, Down]) by {
      LettersOnTurnsMove10();
    }
    assert Follows(Resolve, LettersOnTurns, Position(1, 8), Some(Down), [Down, Down, Down]) by {
      LettersOnTurnsMove9();
    }
    LettersOnTurnsMove8();
  }

  lemma LettersOnTurnsLegEnd2()
    ensures End(Position(0, 8), [Down, Down, Down, Down]) == Position(4, 8)
  {
  }

  lemma LettersOnTurnsLeg3()
    ensures Follows(Resolve, LettersOnTurns, Position(4, 8), Some(Down), [Left, Left, Left, Left])
  {
    assert Follows(Resolve, LettersOnTurns, Position(4, 5), Some(Left), [Left]) by {
      LettersOnTurnsMove15();
    }
    assert Follows(Resolve, LettersOnTurns, Position(4, 6), Some(Left), [Left, Left]) by {
      LettersOnTurnsMove14();
    }
    assert Follows(Resolve, LettersOnTurns, Position(4, 7), Some(Left), [Left, Left, Left]) by {
      LettersOnTurnsMove13();
    }
    LettersOnTurnsMove12();
  }

  lemma LettersOnTurnsLegEnd3()
    ensures End(Position(4, 8), [Left, Left, Left, Left]) == Position(4, 4)
  {
  }

  lemma LettersOnTurnsLeg4()
    ensures Follows(Resolve, LettersOnTurns, Position(4, 4), Some(Left), [Up, Up, Left, Left])
  {
    assert Follows(Resolve, LettersOnTurns, Position(2, 3), Some(Left), [Left]) by {
      LettersOnTurnsMove19();
    }
    assert Follows(Resolve, LettersOnTurns, Position(2, 4), Some(Up), [Left, Left]) by {
      LettersOnTurnsMove18();
    }
    assert Follows(Resolve, LettersOnTurns, Position(3, 4), Some(Up), [Up, Left, Left]) by {
      LettersOnTurnsMove17();
    }
    LettersOnTurnsMove16();
  }

  lemma LettersOnTurnsLegEnd4()
    ensures End(Position(4, 4), [Up, Up, Left, Left]) == Position(2, 2)
  {
  }

  lemma LettersOnTurnsLeg5()
    ensures Follows(Resolve, LettersOnTurns, Position(2, 2), Some(Left), [Left, Left])
  {
    assert Follows(Resolve, LettersOnTurns, Position(2, 1), Some(Left), [Left]) by {
      LettersOnTurnsMove21();
    }
    LettersOnTurnsMove20();
  }

  lemma LettersOnTurnsLegEnd5()
    ensures End(Position(2, 2), [Left, Left]) == Position(2, 0)
  {
  }

  lemma LettersOnTurnsArrive1()
    ensures End(Position(0, 0), [Right, Right, Right, Right] + [Right, Right, Right, Right])
        == Position(0, 8)
  {
    LettersOnTurnsLegEnd0();
    LettersOnTurnsLegEnd1();
    StepsJoin(Position(0, 0), [Right, Right, Right, Right], Position(0, 4), [Right, Right, Right,
        Right]);
  }

  lemma LettersOnTurnsWalk1()
    ensures Follows(Resolve, LettersOnTurns, Position(0, 0), None, [Right, Right, Right, Right]
        + [Right, Right, Right, Right])
  {
    LettersOnTurnsLeg0();
    LettersOnTurnsLegEnd0();
    LettersOnTurnsLeg1();
    FollowsJoin(Resolve, LettersOnTurns, Position(0, 0), None, [Right, Right, Right, Right],
        Position(0, 4), [Right, Right, Right, Right]);
  }

  lemma LettersOnTurnsArrive2()
    ensures End(Position(0, 0), [Right, Right, Right, Right] + [Right, Right, Right, Right] + [Down,
        Down, Down, Down]) == Position(4, 8)
  {
    LettersOnTurnsArrive1();
    LettersOnTurnsLegEnd2();
    StepsJoin(Position(0, 0), [Right, Right, Right, Right] + [Right, Right, Right, Right],
        Position(0, 8), [Down, Down, Down, Down]);
  }

  lemma LettersOnTurnsWalk2()
    ensures Follows(Resolve, LettersOnTurns, Position(0, 0), None, [Right, Right, Right, Right]
        + [Right, Right, Right, Right] + [Down, Down, Down, Down])
  {
    LettersOnTurnsWalk1();
    LettersOnTurnsArrive1();
    LettersOnTurnsLeg2();
    FollowsJoin(Resolve, LettersOnTurns, Position(0, 0), None, [Right, Right, Right, Right] + [Right,
        Right, Right, Right], Position(0, 8), [Down, Down, Down, Down]);
  }

  lemma LettersOnTurnsArrive3()
    ensures End(Position(0, 0), [Right, Right, Right, Right] + [Right, Right, Right, Right] + [Down,
        Down, Down, Down] + [Left, Left, Left, Left]) == Position(4, 4)
  {
    LettersOnTurnsArrive2();
    LettersOnTurnsLegEnd3();
    StepsJoin(Position(0, 0), [Right, Right, Right, Right] + [Right, Right, Right, Right] + [Down,
        Down, Down, Down], Position(4, 8), [Left, Left, Left, Left]);
  }

  lemma LettersOnTurnsWalk3()
    ensures Follows(Resolve, LettersOnTurns, Position(0, 0), None, [Right, Right, Right, Right]
        + [Right, Right, Right, Right] + [Down, Down, Down, Down] + [Left, Left, Left, Left])
  {
    LettersOnTurnsWalk2();
    LettersOnTurnsArrive2();
    LettersOnTurnsLeg3();
    FollowsJoin(Resolve, LettersOnTurns, Position(0, 0), None, [Right, Right, Right, Right] + [Right,
        Right, Right, Right] + [Down, Down, Down, Down], Position(4, 8), [Left, Left, Left, Left]);
  }

  lemma LettersOnTurnsArrive4()
    ensures End(Position(0, 0), [Right, Right, Right, Right] + [Right, Right, Right, Right] + [Down,
        Down, Down, Down] + [Left, Left, Left, Left] + [Up, Up, Left, Left]) == Position(2, 2)
  {
    LettersOnTurnsArrive3();
    LettersOnTurnsLegEnd4();
    StepsJoin(Position(0, 0), [Right, Right, Right, Right] + [Right, Right, Right, Right] + [Down,
        Down, Down, Down] + [Left, Left, Left, Left], Position(4, 4), [Up, Up, Left, Left]);
  }

  lemma LettersOnTurnsWalk4()
    ensures Follows(Resolve, LettersOnTurns, Position(0, 0), None, [Right, Right, Right, Right]
        + [Right, Right, Right, Right] + [Down, Down, Down, Down] + [Left, Left, Left, Left] + [Up,
        Up, Left, Left])
  {
    LettersOnTurnsWalk3();
    LettersOnTurnsArrive3();
    LettersOnTurnsLeg4();
    FollowsJoin(Resolve, LettersOnTurns, Position(0, 0), None, [Right, Right, Right, Right] + [Right,
        Right, Right, Right] + [Down, Down, Down, Down] + [Left, Left, Left, Left], Position(4, 4),
        [Up, Up, Left, Left]);
  }

  lemma LettersOnTurnsArrive5()
    ensures End(Position(0, 0), [Right, Right, Right, Right] + [Right, Right, Right, Right] + [Down,
        Down, Down, Down] + [Left, Left, Left, Left] + [Up, Up, Left, Left] + [Left, Left])
        == Position(2, 0)
  {
    LettersOnTurnsArrive4();
    LettersOnTurnsLegEnd5();
    StepsJoin(Position(0, 0), [Right, Right, Right, Right] + [Right, Right, Right, Right] + [Down,
        Down, Down, Down] + [Left, Left, Left, Left] + [Up, Up, Left, Left], Position(2, 2), [Left,
        Left]);
  }

  lemma LettersOnTurnsWalk5()
    ensures Follows(Resolve, LettersOnTurns, Position(0, 0), None, [Right, Right, Right, Right]
        + [Right, Right, Right, Right] + [Down, Down, Down, Down] + [Left, Left, Left, Left] + [Up,
        Up, Left, Left] + [Left, Left])
  {
    LettersOnTurnsWalk4();
    LettersOnTurnsArrive4();
    LettersOnTurnsLeg5();
    FollowsJoin(Resolve, LettersOnTurns, Position(0, 0), None, [Right, Right, Right, Right] + [Right,
        Right, Right, Right] + [Down, Down, Down, Down] + [Left, Left, Left, Left] + [Up, Up, Left,
        Left], Position(2, 2), [Left, Left]);
  }

  lemma LettersOnTurnsBound()
    ensures |LettersOnTurnsMoves| < StepBound(LettersOnTurns)
  {
    FieldCountCoversRow(LettersOnTurns, 0);
  }

  lemma LettersOnTurnsLegSteps0()
    ensures Steps(Position(0, 0), [Right, Right, Right, Right]) == [Position(0, 1), Position(0, 2),
        Position(0, 3), Position(0, 4)]
  {
  }

  lemma LettersOnTurnsLegText0()
    ensures Text(LettersOnTurns, [Position(0, 1), Position(0, 2), Position(0, 3), Position(0, 4)])
        == "---A"
  {
  }

  lemma LettersOnTurnsLegLetters0()
    ensures LetterPositions(LettersOnTurns, [Position(0, 1), Position(0, 2), Position(0, 3),
        Position(0, 4)]) == [Position(0, 4)]
  {
  }

  lemma LettersOnTurnsLegSteps1()
    ensures Steps(Position(0, 4), [Right, Right, Right, Right]) == [Position(0, 5), Position(0, 6),
        Position(0, 7), Position(0, 8)]
  {
  }

  lemma LettersOnTurnsLegText1()
    ensures Text(LettersOnTurns, [Position(0, 5), Position(0, 6), Position(0, 7), Position(0, 8)])
        == "---+"
  {
  }

  lemma LettersOnTurnsLegLetters1()
    ensures LetterPositions(LettersOnTurns, [Position(0, 5), Position(0, 6), Position(0, 7),
        Position(0, 8)]) == []
  {
  }

  lemma LettersOnTurnsLegSteps2()
    ensures Steps(Position(0, 8), [Down, Down, Down, Down]) == [Position(1, 8), Position(2, 8),
        Position(3, 8), Position(4, 8)]
  {
  }

  lemma LettersOnTurnsLegText2()
    ensures Text(LettersOnTurns, [Position(1, 8), Position(2, 8), Position(3, 8), Position(4, 8)])
        == "|||C"
  {
  }

  lemma LettersOnTurnsLegLetters2()
    ensures LetterPositions(LettersOnTurns, [Position(1, 8), Position(2, 8), Position(3, 8),
        Position(4, 8)]) == [Position(4, 8)]
  {
  }

  lemma LettersOnTurnsLegSteps3()
    ensures Steps(Position(4, 8), [Left, Left, Left, Left]) == [Position(4, 7), Position(4, 6),
        Position(4, 5), Position(4, 4)]
  {
  }

  lemma LettersOnTurnsLegText3()
    ensures Text(LettersOnTurns, [Position(4, 7), Position(4, 6), Position(4, 5), Position(4, 4)])
        == "---+"
  {
  }

  lemma LettersOnTurnsLegLetters3()
    ensures LetterPositions(LettersOnTurns, [Position(4, 7), Position(4, 6), Position(4, 5),
        Position(4, 4)]) == []
  {
  }

  lemma LettersOnTurnsLegSteps4()
    ensures Steps(Position(4, 4), [Up, Up, Left, Left]) == [Position(3, 4), Position(2, 4),
        Position(2, 3), Position(2, 2)]
  {
  }

  lemma LettersOnTurnsLegText4()
    ensures Text(LettersOnTurns, [Position(3, 4), Position(2, 4), Position(2, 3), Position(2, 2)])
        == "|+-B"
  {
  }

  lemma LettersOnTurnsLegLetters4()
    ensures LetterPositions(LettersOnTurns, [Position(3, 4), Position(2, 4), Position(2, 3),
        Position(2, 2)]) == [Position(2, 2)]
  {
  }

  lemma LettersOnTurnsLegSteps5()
    ensures Steps(Position(2, 2), [Left, Left]) == [Position(2, 1), Position(2, 0)]
  {
  }

  lemma LettersOnTurnsLegText5()
    ensures Text(LettersOnTurns, [Position(2, 1), Position(2, 0)]) == "-x"
  {
  }

  lemma LettersOnTurnsLegLetters5()
    ensures LetterPositions(LettersOnTurns, [Position(2, 1), Position(2, 0)]) == []
  {
  }

  lemma LettersOnTurnsRoute0()
    ensures Text(LettersOnTurns, [Position(0, 0)] + Steps(Position(0, 0), [Right, Right, Right,
        Right])) == "@---A"
    ensures LetterPositions(LettersOnTurns, [Position(0, 0)] + Steps(Position(0, 0), [Right, Right,
        Right, Right])) == [Position(0, 4)]
  {
    LettersOnTurnsLegSteps0();
    LettersOnTurnsLegText0();
    LettersOnTurnsLegLetters0();
    TextConcat(LettersOnTurns, [Position(0, 0)], [Position(0, 1), Position(0, 2), Position(0, 3),
        Position(0, 4)]);
    LetterPositionsAppend(LettersOnTurns, [Position(0, 0)], [Position(0, 1), Position(0, 2),
        Position(0, 3), Position(0, 4)]);
    LettersOnTurnsJoin0();
  }

  lemma LettersOnTurnsJoin0()
    ensures "@" + "---A" == "@---A"
  {
  }

  lemma LettersOnTurnsRoute1()
    ensures Text(LettersOnTurns, [Position(0, 0)] + Steps(Position(0, 0), [Right, Right, Right, Right]
        + [Right, Right, Right, Right])) == "@---A---+"
    ensures LetterPositions(LettersOnTurns, [Position(0, 0)] + Steps(Position(0, 0), [Right, Right,
        Right, Right] + [Right, Right, Right, Right])) == [Position(0, 4)]
  {
    LettersOnTurnsLegSteps1();
    LettersOnTurnsLegText1();
    LettersOnTurnsLegLetters1();
    LettersOnTurnsRoute0();
    LettersOnTurnsLegEnd0();
    RouteJoin(LettersOnTurns, Position(0, 0), [Right, Right, Right, Right], Position(0, 4), [Right,
        Right, Right, Right]);
    LettersOnTurnsJoin1();
  }

  lemma LettersOnTurnsJoin1()
    ensures "@---A" + "---+" == "@---A---+"
  {
  }

  lemma LettersOnTurnsRoute2()
    ensures Text(LettersOnTurns, [Position(0, 0)] + Steps(Position(0, 0), [Right, Right, Right, Right]
        + [Right, Right, Right, Right] + [Down, Down, Down, Down])) == "@---A---+|||C"
    ensures LetterPositions(LettersOnTurns, [Position(0, 0)] + Steps(Position(0, 0), [Right, Right,
        Right, Right] + [Right, Right, Right, Right] + [Down, Down, Down, Down])) == [Position(0, 4),
        Position(4, 8)]
  {
    LettersOnTurnsLegSteps2();
    LettersOnTurnsLegText2();
    LettersOnTurnsLegLetters2();
    LettersOnTurnsRoute1();
    LettersOnTurnsArrive1();
    RouteJoin(LettersOnTurns, Position(0, 0), [Right, Right, Right, Right] + [Right, Right, Right,
        Right], Position(0, 8), [Down, Down, Down, Down]);
    LettersOnTurnsJoin2();
  }

  lemma LettersOnTurnsJoin2()
    ensures "@---A---+" + "|||C" == "@---A---+|||C"
    ensures [Position(0, 4)] + [Position(4, 8)] == [Position(0, 4), Position(4, 8)]
  {
  }

  lemma LettersOnTurnsRoute3()
    ensures Text(LettersOnTurns, [Position(0, 0)] + Steps(Position(0, 0), [Right, Right, Right, Right]
        + [Right, Right, Right, Right] + [Down, Down, Down, Down] + [Left, Left, Left, Left]))
        == "@---A---+|||C---+"
    ensures LetterPositions(LettersOnTurns, [Position(0, 0)] + Steps(Position(0, 0), [Right, Right,
        Right, Right] + [Right, Right, Right, Right] + [Down, Down, Down, Down] + [Left, Left, Left,
        Left])) == [Position(0, 4), Position(4, 8)]
  {
    LettersOnTurnsLegSteps3();
    LettersOnTurnsLegText3();
    LettersOnTurnsLegLetters3();
    LettersOnTurnsRoute2();
    LettersOnTurnsArrive2();
    RouteJoin(LettersOnTurns, Position(0, 0), [Right, Right, Right, Right] + [Right, Right, Right,
        Right] + [Down, Down, Down, Down], Position(4, 8), [Left, Left, Left, Left]);
    LettersOnTurnsJoin3();
  }

  lemma LettersOnTurnsJoin3()
    ensures "@---A---+|||C" + "---+" == "@---A---+|||C---+"
  {
  }

  lemma LettersOnTurnsRoute4()
    ensures Text(LettersOnTurns, [Position(0, 0)] + Steps(Position(0, 0), [Right, Right, Right, Right]
        + [Right, Right, Right, Right] + [Down, Down, Down, Down] + [Left, Left, Left, Left] + [Up,
        Up, Left, Left])) == "@---A---+|||C---+|+-B"
    ensures LetterPositions(LettersOnTurns, [Position(0, 0)] + Steps(Position(0, 0), [Right, Right,
        Right, Right] + [Right, Right, Right, Right] + [Down, Down, Down, Down] + [Left, Left, Left,
        Left] + [Up, Up, Left, Left])) == [Position(0, 4), Position(4, 8), Position(2, 2)]
  {
    LettersOnTurnsLegSteps4();
    LettersOnTurnsLegText4();
    LettersOnTurnsLegLetters4();
    LettersOnTurnsRoute3();
    LettersOnTurnsArrive3();
    RouteJoin(LettersOnTurns, Position(0, 0), [Right, Right, Right, Right] + [Right, Right, Right,
        Right] + [Down, Down, Down, Down] + [Left, Left, Left, Left], Position(4, 4), [Up, Up, Left,
        Left]);
    LettersOnTurnsJoin4();
  }

  lemma LettersOnTurnsJoin4()
    ensures "@---A---+|||C---+" + "|+-B" == "@---A---+|||C---+|+-B"
    ensures [Position(0, 4), Position(4, 8)] + [Position(2, 2)] == [Position(0, 4), Position(4, 8),
        Position(2, 2)]
  {
  }

  lemma LettersOnTurnsRoute5()
    ensures Text(LettersOnTurns, [Position(0, 0)] + Steps(Position(0, 0), [Right, Right, Right, Right]
        + [Right, Right, Right, Right] + [Down, Down, Down, Down] + [Left, Left, Left, Left] + [Up,
        Up, Left, Left] + [Left, Left])) == "@---A---+|||C---+|+-B-x"
    ensures LetterPositions(LettersOnTurns, [Position(0, 0)] + Steps(Position(0, 0), [Right, Right,
        Right, Right] + [Right, Right, Right, Right] + [Down, Down, Down, Down] + [Left, Left, Left,
        Left] + [Up, Up, Left, Left] + [Left, Left])) == [Position(0, 4), Position(4, 8),
        Position(2, 2)]
  {
    LettersOnTurnsLegSteps5();
    LettersOnTurnsLegText5();
    LettersOnTurnsLegLetters5();
    LettersOnTurnsRoute4();
    LettersOnTurnsArrive4();
    RouteJoin(LettersOnTurns, Position(0, 0), [Right, Right, Right, Right] + [Right, Right, Right,
        Right] + [Down, Down, Down, Down] + [Left, Left, Left, Left] + [Up, Up, Left, Left],
        Position(2, 2), [Left, Left]);
    LettersOnTurnsJoin5();
  }

  lemma LettersOnTurnsJoin5()
    ensures "@---A---+|||C---+|+-B" + "-x" == "@---A---+|||C---+|+-B-x"
  {
  }

  lemma LettersOnTurnsDedup()
    ensures Dedup([Position(0, 4), Position(4, 8), Position(2, 2)]) == [Position(0, 4), Position(4, 8),
        Position(2, 2)]
  {
    var s := [Position(0, 4), Position(4, 8), Position(2, 2)];
    assert Firsts(s, 2) == [Position(2, 2)] + Firsts(s, 3);
    assert Firsts(s, 1) == [Position(4, 8)] + Firsts(s, 2);
    assert Firsts(s, 0) == [Position(0, 4)] + Firsts(s, 1);
  }

  lemma LettersOnTurnsWord()
    ensures Text(LettersOnTurns, [Position(0, 4), Position(4, 8), Position(2, 2)]) == "ACB"
  {
  }

  /** The outcome test.js expects for "Glyphs may be found on turns". */
  lemma LettersOnTurnsExample()
    ensures FindPathSpec(LettersOnTurns) == Ok(PathResult("@---A---+|||C---+|+-B-x", "ACB"))
  {
    LettersOnTurnsStartLocated();
    LettersOnTurnsEndLocated();
    LettersOnTurnsWalk5();
    LettersOnTurnsArrive5();
    LettersOnTurnsBound();
    FindPathFollowing(Resolve, LettersOnTurns, Position(0, 0), LettersOnTurnsMoves);
    LettersOnTurnsRoute5();
    LettersOnTurnsDedup();
    LettersOnTurnsWord();
  }

  // test.js:63, "Do not collect a letter from the same location twice"

  const RepeatedLetters: Grid := [
      [" ", " ", " ", " ", "+", "-", "O", "-", "N", "-", "+"],
      [" ", " ", " ", " ", "|", " ", " ", " ", " ", " ", "|"],
      [" ", " ", " ", " ", "|", " ", " ", " ", "+", "-", "I", "-", "+"],
      ["@", "-", "G", "-", "O", "-", "+", " ", "|", " ", "|", " ", "|"],
      [" ", " ", " ", " ", "|", " ", "|", " ", "+", "-", "+", " ", "E"],
      [" ", " ", " ", " ", "+", "-", "+", " ", " ", " ", " ", " ", "S"],
      [" ", " ", " ", " ", " ", " ", " ", " ", " ", " ", " ", " ", "|"],
      [" ", " ", " ", " ", " ", " ", " ", " ", " ", " ", " ", " ", "x"]
    ]

  lemma RepeatedLettersStartLocated()
    ensures Locate(RepeatedLetters, START) == Ok(Position(3, 0))
  {
    forall i | 0 <= i < |RepeatedLetters| && i != 3
      ensures START !in RepeatedLetters[i]
    {
      if i == 0 {
      } else if i == 1 {
      } else if i == 2 {
      } else if i == 4 {
      } else if i == 5 {
      } else if i == 6 {
      } else {
      }
    }
    LocateAt(RepeatedLetters, START, Position(3, 0));
  }

  lemma RepeatedLettersEndLocated()
    ensures Locate(RepeatedLetters, END) == Ok(Position(7, 12))
  {
    forall i | 0 <= i < |RepeatedLetters| && i != 7
      ensures END !in RepeatedLetters[i]
    {
      if i == 0 {
      } else if i == 1 {
      } else if i == 2 {
      } else if i == 3 {
      } else if i == 4 {
      } else if i == 5 {
      } else {
      }
    }
    LocateAt(RepeatedLetters, END, Position(7, 12));
  }

  const RepeatedLettersMoves: seq<Direction> :=
    [Right, Right, Right, Right]
    + [Right, Right, Down, Down]
    + [Left, Left, Up, Up]
    + [Up, Up, Up, Right]
    + [Right, Right, Right, Right]
    + [Right, Down, Down, Down]
    + [Down, Left, Left, Up]
    + [Up, Right, Right, Right]
    + [Right, Down, Down, Down]
    + [Down, Down]

  lemma RepeatedLettersMove0()
    ensures Moves(Resolve, RepeatedLetters, Position(3, 0), None, Right)
  {
    SetsOff(RepeatedLetters, Position(3, 0), Right);
  }

  lemma RepeatedLettersMove1()
    ensures Moves(Resolve, RepeatedLetters, Position(3, 1), Some(Right), Right)
  {
    KeepsHeading(RepeatedLetters, Position(3, 1), Right, "-");
  }

  lemma RepeatedLettersMove2()
    ensures Moves(Resolve, RepeatedLetters, Position(3, 2), Some(Right), Right)
  {
    KeepsHeading(RepeatedLetters, Position(3, 2), Right, "G");
  }

  lemma RepeatedLettersMove3()
    ensures Moves(Resolve, RepeatedLetters, Position(3, 3), Some(Right), Right)
  {
    KeepsHeading(RepeatedLetters, Position(3, 3), Right, "-");
  }

  lemma RepeatedLettersMove4()
    ensures Moves(Resolve, RepeatedLetters, Position(3, 4), Some(Right), Right)
  {
    KeepsHeading(RepeatedLetters, Position(3, 4), Right, "O");
  }

  lemma RepeatedLettersMove5()
    ensures Moves(Resolve, RepeatedLetters, Position(3, 5), Some(Right), Right)
  {
    KeepsHeading(RepeatedLetters, Position(3, 5), Right, "-");
  }

  lemma RepeatedLettersMove6()
    ensures Moves(Resolve, RepeatedLetters, Position(3, 6), Some(Right), Down)
  {
    TurnsTo(RepeatedLetters, Position(3, 6), Right, Down);
  }

  lemma RepeatedLettersMove7()
    ensures Moves(Resolve, RepeatedLetters, Position(4, 6), Some(Down), Down)
  {
    KeepsHeading(RepeatedLetters, Position(4, 6), Down, "|");
  }

  lemma RepeatedLettersMove8()
    ensures Moves(Resolve, RepeatedLetters, Position(5, 6), Some(Down), Left)
  {
    TurnsTo(RepeatedLetters, Position(5, 6), Down, Left);
  }

  lemma RepeatedLettersMove9()
    ensures Moves(Resolve, RepeatedLetters, Position(5, 5), Some(Left), Left)
  {
    KeepsHeading(RepeatedLetters, Position(5, 5), Left, "-");
  }

  lemma RepeatedLettersMove10()
    ensures Moves(Resolve, RepeatedLetters, Position(5, 4), Some(Left), Up)
  {
    TurnsTo(RepeatedLetters, Position(5, 4), Left, Up);
  }

  lemma RepeatedLettersMove11()
    ensures Moves(Resolve, RepeatedLetters, Position(4, 4), Some(Up), Up)
  {
    KeepsHeading(RepeatedLetters, Position(4, 4), Up, "|");
  }

  lemma RepeatedLettersMove12()
    ensures Moves(Resolve, RepeatedLetters, Position(3, 4), Some(Up), Up)
  {
    KeepsHeading(RepeatedLetters, Position(3, 4), Up, "O");
  }

  lemma RepeatedLettersMove13()
    ensures Moves(Resolve, RepeatedLetters, Position(2, 4), Some(Up), Up)
  {
    KeepsHeading(RepeatedLetters, Position(2, 4), Up, "|");
  }

  lemma RepeatedLettersMove14()
    ensures Moves(Resolve, RepeatedLetters, Position(1, 4), Some(Up), Up)
  {
    KeepsHeading(RepeatedLetters, Position(1, 4), Up, "|");
  }

  lemma RepeatedLettersMove15()
    ensures Moves(Resolve, RepeatedLetters, Position(0, 4), Some(Up), Right)
  {
    TurnsTo(RepeatedLetters, Position(0, 4), Up, Right);
  }

  lemma RepeatedLettersMove16()
    ensures Moves(Resolve, RepeatedLetters, Position(0, 5), Some(Right), Right)
  {
    KeepsHeading(RepeatedLetters, Position(0, 5), Right, "-");
  }

  lemma RepeatedLettersMove17()
    ensures Moves(Resolve, RepeatedLetters, Position(0, 6), Some(Right), Right)
  {
    KeepsHeading(RepeatedLetters, Position(0, 6), Right, "O");
  }

  lemma RepeatedLettersMove18()
    ensures Moves(Resolve, RepeatedLetters, Position(0, 7), Some(Right), Right)
  {
    KeepsHeading(RepeatedLetters, Position(0, 7), Right, "-");
  }

  lemma RepeatedLettersMove19()
    ensures Moves(Resolve, RepeatedLetters, Position(0, 8), Some(Right), Right)
  {
    KeepsHeading(RepeatedLetters, Position(0, 8), Right, "N");
  }

  lemma RepeatedLettersMove20()
    ensures Moves(Resolve, RepeatedLetters, Position(0, 9), Some(Right), Right)
  {
    KeepsHeading(RepeatedLetters, Position(0, 9), Right, "-");
  }

  lemma RepeatedLettersMove21()
    ensures Moves(Resolve, RepeatedLetters, Position(0, 10), Some(Right), Down)
  {
    TurnsTo(RepeatedLetters, Position(0, 10), Right, Down);
  }

  lemma RepeatedLettersMove22()
    ensures Moves(Resolve, RepeatedLetters, Position(1, 10), Some(Down), Down)
  {
    KeepsHeading(RepeatedLetters, Position(1, 10), Down, "|");
  }

  lemma RepeatedLettersMove23()
    ensures Moves(Resolve, RepeatedLetters, Position(2, 10), Some(Down), Down)
  {
    KeepsHeading(RepeatedLetters, Position(2, 10), Down, "I");
  }

  lemma RepeatedLettersMove24()
    ensures Moves(Resolve, RepeatedLetters, Position(3, 10), Some(Down), Down)
  {
    KeepsHeading(RepeatedLetters, Position(3, 10), Down, "|");
  }

  lemma RepeatedLettersMove25()
    ensures Moves(Resolve, RepeatedLetters, Position(4, 10), Some(Down), Left)
  {
    TurnsTo(RepeatedLetters, Position(4, 10), Down, Left);
  }

  lemma RepeatedLettersMove26()
    ensures Moves(Resolve, RepeatedLetters, Position(4, 9), Some(Left), Left)
  {
    KeepsHeading(RepeatedLetters, Position(4, 9), Left, "-");
  }

  lemma RepeatedLettersMove27()
    ensures Moves(Resolve, RepeatedLetters, Position(4, 8), Some(Left), Up)
  {
    TurnsTo(RepeatedLetters, Position(4, 8), Left, Up);
  }

  lemma RepeatedLettersMove28()
    ensures Moves(Resolve, RepeatedLetters, Position(3, 8), Some(Up), Up)
  {
    KeepsHeading(RepeatedLetters, Position(3, 8), Up, "|");
  }

  lemma RepeatedLettersMove29()
    ensures Moves(Resolve, RepeatedLetters, Position(2, 8), Some(Up), Right)
  {
    TurnsTo(RepeatedLetters, Position(2, 8), Up, Right);
  }

  lemma RepeatedLettersMove30()
    ensures Moves(Resolve, RepeatedLetters, Position(2, 9), Some(Right), Right)
  {
    KeepsHeading(RepeatedLetters, Position(2, 9), Right, "-");
  }

  lemma RepeatedLettersMove31()
    ensures Moves(Resolve, RepeatedLetters, Position(2, 10), Some(Right), Right)
  {
    KeepsHeading(RepeatedLetters, Position(2, 10), Right, "I");
  }

  lemma RepeatedLettersMove32()
    ensures Moves(Resolve, RepeatedLetters, Position(2, 11), Some(Right), Right)
  {
    KeepsHeading(RepeatedLetters, Position(2, 11), Right, "-");
  }

  lemma RepeatedLettersMove33()
    ensures Moves(Resolve, RepeatedLetters, Position(2, 12), Some(Right), Down)
  {
    TurnsTo(RepeatedLetters, Position(2, 12), Right, Down);
  }

  lemma RepeatedLettersMove34()
    ensures Moves(Resolve, RepeatedLetters, Position(3, 12), Some(Down), Down)
  {
    KeepsHeading(RepeatedLetters, Position(3, 12), Down, "|");
  }

  lemma RepeatedLettersMove35()
    ensures Moves(Resolve, RepeatedLetters, Position(4, 12), Some(Down), Down)
  {
    KeepsHeading(RepeatedLetters, Position(4, 12), Down, "E");
  }

  lemma RepeatedLettersMove36()
    ensures Moves(Resolve, RepeatedLetters, Position(5, 12), Some(Down), Down)
  {
    KeepsHeading(RepeatedLetters, Position(5, 12), Down, "S");
  }

  lemma RepeatedLettersMove37()
    ensures Moves(Resolve, RepeatedLetters, Position(6, 12), Some(Down), Down)
  {
    KeepsHeading(RepeatedLetters, Position(6, 12), Down, "|");
  }

  lemma RepeatedLettersLeg0()
    ensures Follows(Resolve, RepeatedLetters, Position(3, 0), None, [Right, Right, Right, Right])
  {
    assert Follows(Resolve, RepeatedLetters, Position(3, 3), Some(Right), [Right]) by {
      RepeatedLettersMove3();
    }
    assert Follows(Resolve, RepeatedLetters, Position(3, 2), Some(Right), [Right, Right]) by {
      RepeatedLettersMove2();
    }
    assert Follows(Resolve, RepeatedLetters, Position(3, 1), Some(Right), [Right, Right, Right]) by {
      RepeatedLettersMove1();
    }
    RepeatedLettersMove0();
  }

  lemma RepeatedLettersLegEnd0()
    ensures End(Position(3, 0), [Right, Right, Right, Right]) == Position(3, 4)
  {
  }

  lemma RepeatedLettersLeg1()
    ensures Follows(Resolve, RepeatedLetters, Position(3, 4), Some(Right), [Right, Right, Down,
        Down])
  {
    assert Follows(Resolve, RepeatedLetters, Position(4, 6), Some(Down), [Down]) by {
      RepeatedLettersMove7();
    }
    assert Follows(Resolve, RepeatedLetters, Position(3, 6), Some(Right), [Down, Down]) by {
      RepeatedLettersMove6();
    }
    assert Follows(Resolve, RepeatedLetters, Position(3, 5), Some(Right), [Right, Down, Down]) by {
      RepeatedLettersMove5();
    }
    RepeatedLettersMove4();
  }

  lemma RepeatedLettersLegEnd1()
    ensures End(Position(3, 4), [Right, Right, Down, Down]) == Position(5, 6)
  {
  }

  lemma RepeatedLettersLeg2()
    ensures Follows(Resolve, RepeatedLetters, Position(5, 6), Some(Down), [Left, Left, Up, Up])
  {
    assert Follows(Resolve, RepeatedLetters, Position(4, 4), Some(Up), [Up]) by {
      RepeatedLettersMove11();
    }
    assert Follows(Resolve, RepeatedLetters, Position(5, 4), Some(Left), [Up, Up]) by {
      RepeatedLettersMove10();
    }
    assert Follows(Resolve, RepeatedLetters, Position(5, 5), Some(Left), [Left, Up, Up]) by {
      RepeatedLettersMove9();
    }
    RepeatedLettersMove8();
  }

  lemma RepeatedLettersLegEnd2()
    ensures End(Position(5, 6), [Left, Left, Up, Up]) == Position(3, 4)
  {
  }

  lemma RepeatedLettersLeg3()
    ensures Follows(Resolve, RepeatedLetters, Position(3, 4), Some(Up), [Up, Up, Up, Right])
  {
    assert Follows(Resolve, RepeatedLetters, Position(0, 4), Some(Up), [Right]) by {
      RepeatedLettersMove15();
    }
    assert Follows(Resolve, RepeatedLetters, Position(1, 4), Some(Up), [Up, Right]) by {
      RepeatedLettersMove14();
    }
    assert Follows(Resolve, RepeatedLetters, Position(2, 4), Some(Up), [Up, Up, Right]) by {
      RepeatedLettersMove13();
    }
    RepeatedLettersMove12();
  }

  lemma RepeatedLettersLegEnd3()
    ensures End(Position(3, 4), [Up, Up, Up, Right]) == Position(0, 5)
  {
  }

  lemma RepeatedLettersLeg4()
    ensures Follows(Resolve, RepeatedLetters, Position(0, 5), Some(Right), [Right, Right, Right,
        Right])
  {
    assert Follows(Resolve, RepeatedLetters, Position(0, 8), Some(Right), [Right]) by {
      RepeatedLettersMove19();
    }
    assert Follows(Resolve, RepeatedLetters, Position(0, 7), Some(Right), [Right, Right]) by {
      RepeatedLettersMove18();
    }
    assert Follows(Resolve, RepeatedLetters, Position(0, 6), Some(Right), [Right, Right, Right]) by {
      RepeatedLettersMove17();
    }
    RepeatedLettersMove16();
  }

  lemma RepeatedLettersLegEnd4()
    ensures End(Position(0, 5), [Right, Right, Right, Right]) == Position(0, 9)
  {
  }

  lemma RepeatedLettersLeg5()
    ensures Follows(Resolve, RepeatedLetters, Position(0, 9), Some(Right), [Right, Down, Down, Down])
  {
    assert Follows(Resolve, RepeatedLetters, Position(2, 10), Some(Down), [Down]) by {
      RepeatedLettersMove23();
    }
    assert Follows(Resolve, RepeatedLetters, Position(1, 10), Some(Down), [Down, Down]) by {
      RepeatedLettersMove22();
    }
    assert Follows(Resolve, RepeatedLetters, Position(0, 10), Some(Right), [Down, Down, Down]) by {
      RepeatedLettersMove21();
    }
    RepeatedLettersMove20();
  }

  lemma RepeatedLettersLegEnd5()
    ensures End(Position(0, 9), [Right, Down, Down, Down]) == Position(3, 10)
  {
  }

  lemma RepeatedLettersLeg6()
    ensures Follows(Resolve, RepeatedLetters, Position(3, 10), Some(Down), [Down, Left, Left, Up])
  {
    assert Follows(Resolve, RepeatedLetters, Position(4, 8), Some(Left), [Up]) by {
      RepeatedLettersMove27();
    }
    assert Follows(Resolve, RepeatedLetters, Position(4, 9), Some(Left), [Left, Up]) by {
      RepeatedLettersMove26();
    }
    assert Follows(Resolve, RepeatedLetters, Position(4, 10), Some(Down), [Left, Left, Up]) by {
      RepeatedLettersMove25();
    }
    RepeatedLettersMove24();
  }

  lemma RepeatedLettersLegEnd6()
    ensures End(Position(3, 10), [Down, Left, Left, Up]) == Position(3, 8)
  {
  }

  lemma RepeatedLettersLeg7()
    ensures Follows(Resolve, RepeatedLetters, Position(3, 8), Some(Up), [Up, Right, Right, Right])
  {
    assert Follows(Resolve, RepeatedLetters, Position(2, 10), Some(Right), [Right]) by {
      RepeatedLettersMove31();
    }
    assert Follows(Resolve, RepeatedLetters, Position(2, 9), Some(Right), [Right, Right]) by {
      RepeatedLettersMove30();
    }
    assert Follows(Resolve, RepeatedLetters, Position(2, 8), Some(Up), [Right, Right, Right]) by {
      RepeatedLettersMove29();
    }
    RepeatedLettersMove28();
  }

  lemma RepeatedLettersLegEnd7()
    ensures End(Position(3, 8), [Up, Right, Right, Right]) == Position(2, 11)
  {
  }

  lemma RepeatedLettersLeg8()
    ensures Follows(Resolve, RepeatedLetters, Position(2, 11), Some(Right), [Right, Down, Down,
        Down])
  {
    assert Follows(Resolve, RepeatedLetters, Position(4, 12), Some(Down), [Down]) by {
      RepeatedLettersMove35();
    }
    assert Follows(Resolve, RepeatedLetters, Position(3, 12), Some(Down), [Down, Down]) by {
      RepeatedLettersMove34();
    }
    assert Follows(Resolve, RepeatedLetters, Position(2, 12), Some(Right), [Down, Down, Down]) by {
      RepeatedLettersMove33();
    }
    RepeatedLettersMove32();
  }

  lemma RepeatedLettersLegEnd8()
    ensures End(Position(2, 11), [Right, Down, Down, Down]) == Position(5, 12)
  {
  }

  lemma RepeatedLettersLeg9()
    ensures Follows(Resolve, RepeatedLetters, Position(5, 12), Some(Down), [Down, Down])
  {
    assert Follows(Resolve, RepeatedLetters, Position(6, 12), Some(Down), [Down]) by {
      RepeatedLettersMove37();
    }
    RepeatedLettersMove36();
  }

  lemma RepeatedLettersLegEnd9()
    ensures End(Position(5, 12), [Down, Down]) == Position(7, 12)
  {
  }

  lemma RepeatedLettersArrive1()
    ensures End(Position(3, 0), [Right, Right, Right, Right] + [Right, Right, Down, Down])
        == Position(5, 6)
  {
    RepeatedLettersLegEnd0();
    RepeatedLettersLegEnd1();
    StepsJoin(Position(3, 0), [Right, Right, Right, Right], Position(3, 4), [Right, Right, Down,
        Down]);
  }

  lemma RepeatedLettersWalk1()
    ensures Follows(Resolve, RepeatedLetters, Position(3, 0), None, [Right, Right, Right, Right]
        + [Right, Right, Down, Down])
  {
    RepeatedLettersLeg0();
    RepeatedLettersLegEnd0();
    RepeatedLettersLeg1();
    FollowsJoin(Resolve, RepeatedLetters, Position(3, 0), None, [Right, Right, Right, Right],
        Position(3, 4), [Right, Right, Down, Down]);
  }

  lemma RepeatedLettersArrive2()
    ensures End(Position(3, 0), [Right, Right, Right, Right] + [Right, Right, Down, Down] + [Left,
        Left, Up, Up]) == Position(3, 4)
  {
    RepeatedLettersArrive1();
    RepeatedLettersLegEnd2();
    StepsJoin(Position(3, 0), [Right, Right, Right, Right] + [Right, Right, Down, Down],
        Position(5, 6), [Left, Left, Up, Up]);
  }

  lemma RepeatedLettersWalk2()
    ensures Follows(Resolve, RepeatedLetters, Position(3, 0), None, [Right, Right, Right, Right]
        + [Right, Right, Down, Down] + [Left, Left, Up, Up])
  {
    RepeatedLettersWalk1();
    RepeatedLettersArrive1();
    RepeatedLettersLeg2();
    FollowsJoin(Resolve, RepeatedLetters, Position(3, 0), None, [Right, Right, Right, Right]
        + [Right, Right, Down, Down], Position(5, 6), [Left, Left, Up, Up]);
  }

  lemma RepeatedLettersArrive3()
    ensures End(Position(3, 0), [Right, Right, Right, Right] + [Right, Right, Down, Down] + [Left,
        Left, Up, Up] + [Up, Up, Up, Right]) == Position(0, 5)
  {
    RepeatedLettersArrive2();
    RepeatedLettersLegEnd3();
    StepsJoin(Position(3, 0), [Right, Right, Right, Right] + [Right, Right, Down, Down] + [Left,
        Left, Up, Up], Position(3, 4), [Up, Up, Up, Right]);
  }

  lemma RepeatedLettersWalk3()
    ensures Follows(Resolve, RepeatedLetters, Position(3, 0), None, [Right, Right, Right, Right]
        + [Right, Right, Down, Down] + [Left, Left, Up, Up] + [Up, Up, Up, Right])
  {
    RepeatedLettersWalk2();
    RepeatedLettersArrive2();
    RepeatedLettersLeg3();
    FollowsJoin(Resolve, RepeatedLetters, Position(3, 0), None, [Right, Right, Right, Right]
        + [Right, Right, Down, Down] + [Left, Left, Up, Up], Position(3, 4), [Up, Up, Up, Right]);
  }

  lemma RepeatedLettersArrive4()
    ensures End(Position(3, 0), [Right, Right, Right, Right] + [Right, Right, Down, Down] + [Left,
        Left, Up, Up] + [Up, Up, Up, Right] + [Right, Right, Right, Right]) == Position(0, 9)
  {
    RepeatedLettersArrive3();
    RepeatedLettersLegEnd4();
    StepsJoin(Position(3, 0), [Right, Right, Right, Right] + [Right, Right, Down, Down] + [Left,
        Left, Up, Up] + [Up, Up, Up, Right], Position(0, 5), [Right, Right, Right, Right]);
  }

  lemma RepeatedLettersWalk4()
    ensures Follows(Resolve, RepeatedLetters, Position(3, 0), None, [Right, Right, Right, Right]
        + [Right, Right, Down, Down] + [Left, Left, Up, Up] + [Up, Up, Up, Right] + [Right, Right,
        Right, Right])
  {
    RepeatedLettersWalk3();
    RepeatedLettersArrive3();
    RepeatedLettersLeg4();
    FollowsJoin(Resolve, RepeatedLetters, Position(3, 0), None, [Right, Right, Right, Right]
        + [Right, Right, Down, Down] + [Left, Left, Up, Up] + [Up, Up, Up, Right], Position(0, 5),
        [Right, Right, Right, Right]);
  }

  lemma RepeatedLettersArrive5()
    ensures End(Position(3, 0), [Right, Right, Right, Right] + [Right, Right, Down, Down] + [Left,
        Left, Up, Up] + [Up, Up, Up, Right] + [Right, Right, Right, Right] + [Right, Down, Down,
        Down]) == Position(3, 10)
  {
    RepeatedLettersArrive4();
    RepeatedLettersLegEnd5();
    StepsJoin(Position(3, 0), [Right, Right, Right, Right] + [Right, Right, Down, Down] + [Left,
        Left, Up, Up] + [Up, Up, Up, Right] + [Right, Right, Right, Right], Position(0, 9), [Right,
        Down, Down, Down]);
  }

  lemma RepeatedLettersWalk5()
    ensures Follows(Resolve, RepeatedLetters, Position(3, 0), None, [Right, Right, Right, Right]
        + [Right, Right, Down, Down] + [Left, Left, Up, Up] + [Up, Up, Up, Right] + [Right, Right,
        Right, Right] + [Right, Down, Down, Down])
  {
    RepeatedLettersWalk4();
    RepeatedLettersArrive4();
    RepeatedLettersLeg5();
    FollowsJoin(Resolve, RepeatedLetters, Position(3, 0), None, [Right, Right, Right, Right]
        + [Right, Right, Down, Down] + [Left, Left, Up, Up] + [Up, Up, Up, Right] + [Right, Right,
        Right, Right], Position(0, 9), [Right, Down, Down, Down]);
  }

  lemma RepeatedLettersArrive6()
    ensures End(Position(3, 0), [Right, Right, Right, Right] + [Right, Right, Down, Down] + [Left,
        Left, Up, Up] + [Up, Up, Up, Right] + [Right, Right, Right, Right] + [Right, Down, Down,
        Down] + [Down, Left, Left, Up]) == Position(3, 8)
  {
    RepeatedLettersArrive5();
    RepeatedLettersLegEnd6();
    StepsJoin(Position(3, 0), [Right, Right, Right, Right] + [Right, Right, Down, Down] + [Left,
        Left, Up, Up] + [Up, Up, Up, Right] + [Right, Right, Right, Right] + [Right, Down, Down,
        Down], Position(3, 10), [Down, Left, Left, Up]);
  }

  lemma RepeatedLettersWalk6()
    ensures Follows(Resolve, RepeatedLetters, Position(3, 0), None, [Right, Right, Right, Right]
        + [Right, Right, Down, Down] + [Left, Left, Up, Up] + [Up, Up, Up, Right] + [Right, Right,
        Right, Right] + [Right, Down, Down, Down] + [Down, Left, Left, Up])
  {
    RepeatedLettersWalk5();
    RepeatedLettersArrive5();
    RepeatedLettersLeg6();
    FollowsJoin(Resolve, RepeatedLetters, Position(3, 0), None, [Right, Right, Right, Right]
        + [Right, Right, Down, Down] + [Left, Left, Up, Up] + [Up, Up, Up, Right] + [Right, Right,
        Right, Right] + [Right, Down, Down, Down], Position(3, 10), [Down, Left, Left, Up]);
  }

  lemma RepeatedLettersArrive7()
    ensures End(Position(3, 0), [Right, Right, Right, Right] + [Right, Right, Down, Down] + [Left,
        Left, Up, Up] + [Up, Up, Up, Right] + [Right, Right, Right, Right] + [Right, Down, Down,
        Down] + [Down, Left, Left, Up] + [Up, Right, Right, Right]) == Position(2, 11)
  {
    RepeatedLettersArrive6();
    RepeatedLettersLegEnd7();
    StepsJoin(Position(3, 0), [Right, Right, Right, Right] + [Right, Right, Down, Down] + [Left,
        Left, Up, Up] + [Up, Up, Up, Right] + [Right, Right, Right, Right] + [Right, Down, Down,
        Down] + [Down, Left, Left, Up], Position(3, 8), [Up, Right, Right, Right]);
  }

  lemma RepeatedLettersWalk7()
    ensures Follows(Resolve, RepeatedLetters, Position(3, 0), None, [Right, Right, Right, Right]
        + [Right, Right, Down, Down] + [Left, Left, Up, Up] + [Up, Up, Up, Right] + [Right, Right,
        Right, Right] + [Right, Down, Down, Down] + [Down, Left, Left, Up] + [Up, Right, Right,
        Right])
  {
    RepeatedLettersWalk6();
    RepeatedLettersArrive6();
    RepeatedLettersLeg7();
    FollowsJoin(Resolve, RepeatedLetters, Position(3, 0), None, [Right, Right, Right, Right]
        + [Right, Right, Down, Down] + [Left, Left, Up, Up] + [Up, Up, Up, Right] + [Right, Right,
        Right, Right] + [Right, Down, Down, Down] + [Down, Left, Left, Up], Position(3, 8), [Up,
        Right, Right, Right]);
  }

  lemma RepeatedLettersArrive8()
    ensures End(Position(3, 0), [Right, Right, Right, Right] + [Right, Right, Down, Down] + [Left,
        Left, Up, Up] + [Up, Up, Up, Right] + [Right, Right, Right, Right] + [Right, Down, Down,
        Down] + [Down, Left, Left, Up] + [Up, Right, Right, Right] + [Right, Down, Down, Down])
        == Position(5, 12)
  {
    RepeatedLettersArrive7();
    RepeatedLettersLegEnd8();
    StepsJoin(Position(3, 0), [Right, Right, Right, Right] + [Right, Right, Down, Down] + [Left,
        Left, Up, Up] + [Up, Up, Up, Right] + [Right, Right, Right, Right] + [Right, Down, Down,
        Down] + [Down, Left, Left, Up] + [Up, Right, Right, Right], Position(2, 11), [Right, Down,
        Down, Down]);
  }

  lemma RepeatedLettersWalk8()
    ensures Follows(Resolve, RepeatedLetters, Position(3, 0), None, [Right, Right, Right, Right]
        + [Right, Right, Down, Down] + [Left, Left, Up, Up] + [Up, Up, Up, Right] + [Right, Right,
        Right, Right] + [Right, Down, Down, Down] + [Down, Left, Left, Up] + [Up, Right, Right,
        Right] + [Right, Down, Down, Down])
  {
    RepeatedLettersWalk7();
    RepeatedLettersArrive7();
    RepeatedLettersLeg8();
    FollowsJoin(Resolve, RepeatedLetters, Position(3, 0), None, [Right, Right, Right, Right]
        + [Right, Right, Down, Down] + [Left, Left, Up, Up] + [Up, Up, Up, Right] + [Right, Right,
        Right, Right] + [Right, Down, Down, Down] + [Down, Left, Left, Up] + [Up, Right, Right,
        Right], Position(2, 11), [Right, Down, Down, Down]);
  }

  lemma RepeatedLettersArrive9()
    ensures End(Position(3, 0), [Right, Right, Right, Right] + [Right, Right, Down, Down] + [Left,
        Left, Up, Up] + [Up, Up, Up, Right] + [Right, Right, Right, Right] + [Right, Down, Down,
        Down] + [Down, Left, Left, Up] + [Up, Right, Right, Right] + [Right, Down, Down, Down]
        + [Down, Down]) == Position(7, 12)
  {
    RepeatedLettersArrive8();
    RepeatedLettersLegEnd9();
    StepsJoin(Position(3, 0), [Right, Right, Right, Right] + [Right, Right, Down, Down] + [Left,
        Left, Up, Up] + [Up, Up, Up, Right] + [Right, Right, Right, Right] + [Right, Down, Down,
        Down] + [Down, Left, Left, Up] + [Up, Right, Right, Right] + [Right, Down, Down, Down],
        Position(5, 12), [Down, Down]);
  }

  lemma RepeatedLettersWalk9()
    ensures Follows(Resolve, RepeatedLetters, Position(3, 0), None, [Right, Right, Right, Right]
        + [Right, Right, Down, Down] + [Left, Left, Up, Up] + [Up, Up, Up, Right] + [Right, Right,
        Right, Right] + [Right, Down, Down, Down] + [Down, Left, Left, Up] + [Up, Right, Right,
        Right] + [Right, Down, Down, Down] + [Down, Down])
  {
    RepeatedLettersWalk8();
    RepeatedLettersArrive8();
    RepeatedLettersLeg9();
    FollowsJoin(Resolve, RepeatedLetters, Position(3, 0), None, [Right, Right, Right, Right]
        + [Right, Right, Down, Down] + [Left, Left, Up, Up] + [Up, Up, Up, Right] + [Right, Right,
        Right, Right] + [Right, Down, Down, Down] + [Down, Left, Left, Up] + [Up, Right, Right,
        Right] + [Right, Down, Down, Down], Position(5, 12), [Down, Down]);
  }

  lemma RepeatedLettersBound()
    ensures |RepeatedLettersMoves| < StepBound(RepeatedLetters)
  {
    FieldCountCoversRow(RepeatedLetters, 2);
  }

  lemma RepeatedLettersLegSteps0()
    ensures Steps(Position(3, 0), [Right, Right, Right, Right]) == [Position(3, 1), Position(3, 2),
        Position(3, 3), Position(3, 4)]
  {
  }

  lemma RepeatedLettersLegText0()
    ensures Text(RepeatedLetters, [Position(3, 1), Position(3, 2), Position(3, 3), Position(3, 4)])
        == "-G-O"
  {
  }

  lemma RepeatedLettersLegLetters0()
    ensures LetterPositions(RepeatedLetters, [Position(3, 1), Position(3, 2), Position(3, 3),
        Position(3, 4)]) == [Position(3, 2), Position(3, 4)]
  {
  }

  lemma RepeatedLettersLegSteps1()
    ensures Steps(Position(3, 4), [Right, Right, Down, Down]) == [Position(3, 5), Position(3, 6),
        Position(4, 6), Position(5, 6)]
  {
  }

  lemma RepeatedLettersLegText1()
    ensures Text(RepeatedLetters, [Position(3, 5), Position(3, 6), Position(4, 6), Position(5, 6)])
        == "-+|+"
  {
  }

  lemma RepeatedLettersLegLetters1()
    ensures LetterPositions(RepeatedLetters, [Position(3, 5), Position(3, 6), Position(4, 6),
        Position(5, 6)]) == []
  {
  }

  lemma RepeatedLettersLegSteps2()
    ensures Steps(Position(5, 6), [Left, Left, Up, Up]) == [Position(5, 5), Position(5, 4),
        Position(4, 4), Position(3, 4)]
  {
  }

  lemma RepeatedLettersLegText2()
    ensures Text(RepeatedLetters, [Position(5, 5), Position(5, 4), Position(4, 4), Position(3, 4)])
        == "-+|O"
  {
  }

  lemma RepeatedLettersLegLetters2()
    ensures LetterPositions(RepeatedLetters, [Position(5, 5), Position(5, 4), Position(4, 4),
        Position(3, 4)]) == [Position(3, 4)]
  {
  }

  lemma RepeatedLettersLegSteps3()
    ensures Steps(Position(3, 4), [Up, Up, Up, Right]) == [Position(2, 4), Position(1, 4),
        Position(0, 4), Position(0, 5)]
  {
  }

  lemma RepeatedLettersLegText3()
    ensures Text(RepeatedLetters, [Position(2, 4), Position(1, 4), Position(0, 4), Position(0, 5)])
        == "||+-"
  {
  }

  lemma RepeatedLettersLegLetters3()
    ensures LetterPositions(RepeatedLetters, [Position(2, 4), Position(1, 4), Position(0, 4),
        Position(0, 5)]) == []
  {
  }

  lemma RepeatedLettersLegSteps4()
    ensures Steps(Position(0, 5), [Right, Right, Right, Right]) == [Position(0, 6), Position(0, 7),
        Position(0, 8), Position(0, 9)]
  {
  }

  lemma RepeatedLettersLegText4()
    ensures Text(RepeatedLetters, [Position(0, 6), Position(0, 7), Position(0, 8), Position(0, 9)])
        == "O-N-"
  {
  }

  lemma RepeatedLettersLegLetters4()
    ensures LetterPositions(RepeatedLetters, [Position(0, 6), Position(0, 7), Position(0, 8),
        Position(0, 9)]) == [Position(0, 6), Position(0, 8)]
  {
  }

  lemma RepeatedLettersLegSteps5()
    ensures Steps(Position(0, 9), [Right, Down, Down, Down]) == [Position(0, 10), Position(1, 10),
        Position(2, 10), Position(3, 10)]
  {
  }

  lemma RepeatedLettersLegText5()
    ensures Text(RepeatedLetters, [Position(0, 10), Position(1, 10), Position(2, 10), Position(3, 10)])
        == "+|I|"
  {
  }

  lemma RepeatedLettersLegLetters5()
    ensures LetterPositions(RepeatedLetters, [Position(0, 10), Position(1, 10), Position(2, 10),
        Position(3, 10)]) == [Position(2, 10)]
  {
  }

  lemma RepeatedLettersLegSteps6()
    ensures Steps(Position(3, 10), [Down, Left, Left, Up]) == [Position(4, 10), Position(4, 9),
        Position(4, 8), Position(3, 8)]
  {
  }

  lemma RepeatedLettersLegText6()
    ensures Text(RepeatedLetters, [Position(4, 10), Position(4, 9), Position(4, 8), Position(3, 8)])
        == "+-+|"
  {
  }

  lemma RepeatedLettersLegLetters6()
    ensures LetterPositions(RepeatedLetters, [Position(4, 10), Position(4, 9), Position(4, 8),
        Position(3, 8)]) == []
  {
  }

  lemma RepeatedLettersLegSteps7()
    ensures Steps(Position(3, 8), [Up, Right, Right, Right]) == [Position(2, 8), Position(2, 9),
        Position(2, 10), Position(2, 11)]
  {
  }

  lemma RepeatedLettersLegText7()
    ensures Text(RepeatedLetters, [Position(2, 8), Position(2, 9), Position(2, 10), Position(2, 11)])
        == "+-I-"
  {
  }

  lemma RepeatedLettersLegLetters7()
    ensures LetterPositions(RepeatedLetters, [Position(2, 8), Position(2, 9), Position(2, 10),
        Position(2, 11)]) == [Position(2, 10)]
  {
  }

  lemma RepeatedLettersLegSteps8()
    ensures Steps(Position(2, 11), [Right, Down, Down, Down]) == [Position(2, 12), Position(3, 12),
        Position(4, 12), Position(5, 12)]
  {
  }

  lemma RepeatedLettersLegText8()
    ensures Text(RepeatedLetters, [Position(2, 12), Position(3, 12), Position(4, 12), Position(5, 12)])
        == "+|ES"
  {
  }

  lemma RepeatedLettersLegLetters8()
    ensures LetterPositions(RepeatedLetters, [Position(2, 12), Position(3, 12), Position(4, 12),
        Position(5, 12)]) == [Position(4, 12), Position(5, 12)]
  {
  }

  lemma RepeatedLettersLegSteps9()
    ensures Steps(Position(5, 12), [Down, Down]) == [Position(6, 12), Position(7, 12)]
  {
  }

  lemma RepeatedLettersLegText9()
    ensures Text(RepeatedLetters, [Position(6, 12), Position(7, 12)]) == "|x"
  {
  }

  lemma RepeatedLettersLegLetters9()
    ensures LetterPositions(RepeatedLetters, [Position(6, 12), Position(7, 12)]) == []
  {
  }

  lemma RepeatedLettersRoute0()
    ensures Text(RepeatedLetters, [Position(3, 0)] + Steps(Position(3, 0), [Right, Right, Right,
        Right])) == "@-G-O"
    ensures LetterPositions(RepeatedLetters, [Position(3, 0)] + Steps(Position(3, 0), [Right, Right,
        Right, Right])) == [Position(3, 2), Position(3, 4)]
  {
    RepeatedLettersLegSteps0();
    RepeatedLettersLegText0();
    RepeatedLettersLegLetters0();
    TextConcat(RepeatedLetters, [Position(3, 0)], [Position(3, 1), Position(3, 2), Position(3, 3),
        Position(3, 4)]);
    LetterPositionsAppend(RepeatedLetters, [Position(3, 0)], [Position(3, 1), Position(3, 2),
        Position(3, 3), Position(3, 4)]);
    RepeatedLettersJoin0();
  }

  lemma RepeatedLettersJoin0()
    ensures "@" + "-G-O" == "@-G-O"
  {
  }

  lemma RepeatedLettersRoute1()
    ensures Text(RepeatedLetters, [Position(3, 0)] + Steps(Position(3, 0), [Right, Right, Right,
        Right] + [Right, Right, Down, Down])) == "@-G-O-+|+"
    ensures LetterPositions(RepeatedLetters, [Position(3, 0)] + Steps(Position(3, 0), [Right, Right,
        Right, Right] + [Right, Right, Down, Down])) == [Position(3, 2), Position(3, 4)]
  {
    RepeatedLettersLegSteps1();
    RepeatedLettersLegText1();
    RepeatedLettersLegLetters1();
    RepeatedLettersRoute0();
    RepeatedLettersLegEnd0();
    RouteJoin(RepeatedLetters, Position(3, 0), [Right, Right, Right, Right], Position(3, 4), [Right,
        Right, Down, Down]);
    RepeatedLettersJoin1();
  }

  lemma RepeatedLettersJoin1()
    ensures "@-G-O" + "-+|+" == "@-G-O-+|+"
  {
  }

  lemma RepeatedLettersRoute2()
    ensures Text(RepeatedLetters, [Position(3, 0)] + Steps(Position(3, 0), [Right, Right, Right,
        Right] + [Right, Right, Down, Down] + [Left, Left, Up, Up])) == "@-G-O-+|+-+|O"
    ensures LetterPositions(RepeatedLetters, [Position(3, 0)] + Steps(Position(3, 0), [Right, Right,
        Right, Right] + [Right, Right, Down, Down] + [Left, Left, Up, Up])) == [Position(3, 2),
        Position(3, 4), Position(3, 4)]
  {
    RepeatedLettersLegSteps2();
    RepeatedLettersLegText2();
    RepeatedLettersLegLetters2();
    RepeatedLettersRoute1();
    RepeatedLettersArrive1();
    RouteJoin(RepeatedLetters, Position(3, 0), [Right, Right, Right, Right] + [Right, Right, Down,
        Down], Position(5, 6), [Left, Left, Up, Up]);
    RepeatedLettersJoin2();
  }

  lemma RepeatedLettersJoin2()
    ensures "@-G-O-+|+" + "-+|O" == "@-G-O-+|+-+|O"
    ensures [Position(3, 2), Position(3, 4)] + [Position(3, 4)] == [Position(3, 2), Position(3, 4),
        Position(3, 4)]
  {
  }

  lemma RepeatedLettersRoute3()
    ensures Text(RepeatedLetters, [Position(3, 0)] + Steps(Position(3, 0), [Right, Right, Right,
        Right] + [Right, Right, Down, Down] + [Left, Left, Up, Up] + [Up, Up, Up, Right]))
        == "@-G-O-+|+-+|O||+-"
    ensures LetterPositions(RepeatedLetters, [Position(3, 0)] + Steps(Position(3, 0), [Right, Right,
        Right, Right] + [Right, Right, Down, Down] + [Left, Left, Up, Up] + [Up, Up, Up, Right]))
        == [Position(3, 2), Position(3, 4), Position(3, 4)]
  {
    RepeatedLettersLegSteps3();
    RepeatedLettersLegText3();
    RepeatedLettersLegLetters3();
    RepeatedLettersRoute2();
    RepeatedLettersArrive2();
    RouteJoin(RepeatedLetters, Position(3, 0), [Right, Right, Right, Right] + [Right, Right, Down,
        Down] + [Left, Left, Up, Up], Position(3, 4), [Up, Up, Up, Right]);
    RepeatedLettersJoin3();
  }

  lemma RepeatedLettersJoin3()
    ensures "@-G-O-+|+-+|O" + "||+-" == "@-G-O-+|+-+|O||+-"
  {
  }

  lemma RepeatedLettersRoute4()
    ensures Text(RepeatedLetters, [Position(3, 0)] + Steps(Position(3, 0), [Right, Right, Right,
        Right] + [Right, Right, Down, Down] + [Left, Left, Up, Up] + [Up, Up, Up, Right] + [Right,
        Right, Right, Right])) == "@-G-O-+|+-+|O||+-O-N-"
    ensures LetterPositions(RepeatedLetters, [Position(3, 0)] + Steps(Position(3, 0), [Right, Right,
        Right, Right] + [Right, Right, Down, Down] + [Left, Left, Up, Up] + [Up, Up, Up, Right]
        + [Right, Right, Right, Right])) == [Position(3, 2), Position(3, 4), Position(3, 4),
        Position(0, 6), Position(0, 8)]
  {
    RepeatedLettersLegSteps4();
    RepeatedLettersLegText4();
    RepeatedLettersLegLetters4();
    RepeatedLettersRoute3();
    RepeatedLettersArrive3();
    RouteJoin(RepeatedLetters, Position(3, 0), [Right, Right, Right, Right] + [Right, Right, Down,
        Down] + [Left, Left, Up, Up] + [Up, Up, Up, Right], Position(0, 5), [Right, Right, Right,
        Right]);
    RepeatedLettersJoin4();
  }

  lemma RepeatedLettersJoin4()
    ensures "@-G-O-+|+-+|O||+-" + "O-N-" == "@-G-O-+|+-+|O||+-O-N-"
    ensures [Position(3, 2), Position(3, 4), Position(3, 4)] + [Position(0, 6), Position(0, 8)]
        == [Position(3, 2), Position(3, 4), Position(3, 4), Position(0, 6), Position(0, 8)]
  {
  }

  lemma RepeatedLettersRoute5()
    ensures Text(RepeatedLetters, [Position(3, 0)] + Steps(Position(3, 0), [Right, Right, Right,
        Right] + [Right, Right, Down, Down] + [Left, Left, Up, Up] + [Up, Up, Up, Right] + [Right,
        Right, Right, Right] + [Right, Down, Down, Down])) == "@-G-O-+|+-+|O||+-O-N-+|I|"
    ensures LetterPositions(RepeatedLetters, [Position(3, 0)] + Steps(Position(3, 0), [Right, Right,
        Right, Right] + [Right, Right, Down, Down] + [Left, Left, Up, Up] + [Up, Up, Up, Right]
        + [Right, Right, Right, Right] + [Right, Down, Down, Down])) == [Position(3, 2),
        Position(3, 4), Position(3, 4), Position(0, 6), Position(0, 8), Position(2, 10)]
  {
    RepeatedLettersLegSteps5();
    RepeatedLettersLegText5();
    RepeatedLettersLegLetters5();
    RepeatedLettersRoute4();
    RepeatedLettersArrive4();
    RouteJoin(RepeatedLetters, Position(3, 0), [Right, Right, Right, Right] + [Right, Right, Down,
        Down] + [Left, Left, Up, Up] + [Up, Up, Up, Right] + [Right, Right, Right, Right],
        Position(0, 9), [Right, Down, Down, Down]);
    RepeatedLettersJoin5();
  }

  lemma RepeatedLettersJoin5()
    ensures "@-G-O-+|+-+|O||+-O-N-" + "+|I|" == "@-G-O-+|+-+|O||+-O-N-+|I|"
    ensures [Position(3, 2), Position(3, 4), Position(3, 4), Position(0, 6), Position(0, 8)]
        + [Position(2, 10)] == [Position(3, 2), Position(3, 4), Position(3, 4), Position(0, 6),
        Position(0, 8), Position(2, 10)]
  {
  }

  lemma RepeatedLettersRoute6()
    ensures Text(RepeatedLetters, [Position(3, 0)] + Steps(Position(3, 0), [Right, Right, Right,
        Right] + [Right, Right, Down, Down] + [Left, Left, Up, Up] + [Up, Up, Up, Right] + [Right,
        Right, Right, Right] + [Right, Down, Down, Down] + [Down, Left, Left, Up]))
        == "@-G-O-+|+-+|O||+-O-N-+|I|+-+|"
    ensures LetterPositions(RepeatedLetters, [Position(3, 0)] + Steps(Position(3, 0), [Right, Right,
        Right, Right] + [Right, Right, Down, Down] + [Left, Left, Up, Up] + [Up, Up, Up, Right]
        + [Right, Right, Right, Right] + [Right, Down, Down, Down] + [Down, Left, Left, Up]))
        == [Position(3, 2), Position(3, 4), Position(3, 4), Position(0, 6), Position(0, 8),
        Position(2, 10)]
  {
    RepeatedLettersLegSteps6();
    RepeatedLettersLegText6();
    RepeatedLettersLegLetters6();
    RepeatedLettersRoute5();
    RepeatedLettersArrive5();
    RouteJoin(RepeatedLetters, Position(3, 0), [Right, Right, Right, Right] + [Right, Right, Down,
        Down] + [Left, Left, Up, Up] + [Up, Up, Up, Right] + [Right, Right, Right, Right] + [Right,
        Down, Down, Down], Position(3, 10), [Down, Left, Left, Up]);
    RepeatedLettersJoin6();
  }

  lemma RepeatedLettersJoin6()
    ensures "@-G-O-+|+-+|O||+-O-N-+|I|" + "+-+|" == "@-G-O-+|+-+|O||+-O-N-+|I|+-+|"
  {
  }

  lemma RepeatedLettersRoute7()
    ensures Text(RepeatedLetters, [Position(3, 0)] + Steps(Position(3, 0), [Right, Right, Right,
        Right] + [Right, Right, Down, Down] + [Left, Left, Up, Up] + [Up, Up, Up, Right] + [Right,
        Right, Right, Right] + [Right, Down, Down, Down] + [Down, Left, Left, Up] + [Up, Right,
        Right, Right])) == "@-G-O-+|+-+|O||+-O-N-+|I|+-+|+-I-"
    ensures LetterPositions(RepeatedLetters, [Position(3, 0)] + Steps(Position(3, 0), [Right, Right,
        Right, Right] + [Right, Right, Down, Down] + [Left, Left, Up, Up] + [Up, Up, Up, Right]
        + [Right, Right, Right, Right] + [Right, Down, Down, Down] + [Down, Left, Left, Up] + [Up,
        Right, Right, Right])) == [Position(3, 2), Position(3, 4), Position(3, 4), Position(0, 6),
        Position(0, 8), Position(2, 10), Position(2, 10)]
  {
    RepeatedLettersLegSteps7();
    RepeatedLettersLegText7();
    RepeatedLettersLegLetters7();
    RepeatedLettersRoute6();
    RepeatedLettersArrive6();
    RouteJoin(RepeatedLetters, Position(3, 0), [Right, Right, Right, Right] + [Right, Right, Down,
        Down] + [Left, Left, Up, Up] + [Up, Up, Up, Right] + [Right, Right, Right, Right] + [Right,
        Down, Down, Down] + [Down, Left, Left, Up], Position(3, 8), [Up, Right, Right, Right]);
    RepeatedLettersJoin7();
  }

  lemma RepeatedLettersJoin7()
    ensures "@-G-O-+|+-+|O||+-O-N-+|I|+-+|" + "+-I-" == "@-G-O-+|+-+|O||+-O-N-+|I|+-+|+-I-"
    ensures [Position(3, 2), Position(3, 4), Position(3, 4), Position(0, 6), Position(0, 8),
        Position(2, 10)] + [Position(2, 10)] == [Position(3, 2), Position(3, 4), Position(3, 4),
        Position(0, 6), Position(0, 8), Position(2, 10), Position(2, 10)]
  {
  }

  lemma RepeatedLettersRoute8()
    ensures Text(RepeatedLetters, [Position(3, 0)] + Steps(Position(3, 0), [Right, Right, Right,
        Right] + [Right, Right, Down, Down] + [Left, Left, Up, Up] + [Up, Up, Up, Right] + [Right,
        Right, Right, Right] + [Right, Down, Down, Down] + [Down, Left, Left, Up] + [Up, Right,
        Right, Right] + [Right, Down, Down, Down])) == "@-G-O-+|+-+|O||+-O-N-+|I|+-+|+-I-+|ES"
    ensures LetterPositions(RepeatedLetters, [Position(3, 0)] + Steps(Position(3, 0), [Right, Right,
        Right, Right] + [Right, Right, Down, Down] + [Left, Left, Up, Up] + [Up, Up, Up, Right]
        + [Right, Right, Right, Right] + [Right, Down, Down, Down] + [Down, Left, Left, Up] + [Up,
        Right, Right, Right] + [Right, Down, Down, Down])) == [Position(3, 2), Position(3, 4),
        Position(3, 4), Position(0, 6), Position(0, 8), Position(2, 10), Position(2, 10), Position(4, 12),
        Position(5, 12)]
  {
    RepeatedLettersLegSteps8();
    RepeatedLettersLegText8();
    RepeatedLettersLegLetters8();
    RepeatedLettersRoute7();
    RepeatedLettersArrive7();
    RouteJoin(RepeatedLetters, Position(3, 0), [Right, Right, Right, Right] + [Right, Right, Down,
        Down] + [Left, Left, Up, Up] + [Up, Up, Up, Right] + [Right, Right, Right, Right] + [Right,
        Down, Down, Down] + [Down, Left, Left, Up] + [Up, Right, Right, Right], Position(2, 11),
        [Right, Down, Down, Down]);
    RepeatedLettersJoin8();
  }

  lemma RepeatedLettersJoin8()
    ensures "@-G-O-+|+-+|O||+-O-N-+|I|+-+|+-I-" + "+|ES" == "@-G-O-+|+-+|O||+-O-N-+|I|+-+|+-I-+|ES"
    ensures [Position(3, 2), Position(3, 4), Position(3, 4), Position(0, 6), Position(0, 8),
        Position(2, 10), Position(2, 10)] + [Position(4, 12), Position(5, 12)] == [Position(3, 2),
        Position(3, 4), Position(3, 4), Position(0, 6), Position(0, 8), Position(2, 10), Position(2, 10),
        Position(4, 12), Position(5, 12)]
  {
  }

  lemma RepeatedLettersRoute9()
    ensures Text(RepeatedLetters, [Position(3, 0)] + Steps(Position(3, 0), [Right, Right, Right,
        Right] + [Right, Right, Down, Down] + [Left, Left, Up, Up] + [Up, Up, Up, Right] + [Right,
        Right, Right, Right] + [Right, Down, Down, Down] + [Down, Left, Left, Up] + [Up, Right,
        Right, Right] + [Right, Down, Down, Down] + [Down, Down]))
        == "@-G-O-+|+-+|O||+-O-N-+|I|+-+|+-I-+|ES|x"
    ensures LetterPositions(RepeatedLetters, [Position(3, 0)] + Steps(Position(3, 0), [Right, Right,
        Right, Right] + [Right, Right, Down, Down] + [Left, Left, Up, Up] + [Up, Up, Up, Right]
        + [Right, Right, Right, Right] + [Right, Down, Down, Down] + [Down, Left, Left, Up] + [Up,
        Right, Right, Right] + [Right, Down, Down, Down] + [Down, Down])) == [Position(3, 2),
        Position(3, 4), Position(3, 4), Position(0, 6), Position(0, 8), Position(2, 10), Position(2, 10),
        Position(4, 12), Position(5, 12)]
  {
    RepeatedLettersLegSteps9();
    RepeatedLettersLegText9();
    RepeatedLettersLegLetters9();
    RepeatedLettersRoute8();
    RepeatedLettersArrive8();
    RouteJoin(RepeatedLetters, Position(3, 0), [Right, Right, Right, Right] + [Right, Right, Down,
        Down] + [Left, Left, Up, Up] + [Up, Up, Up, Right] + [Right, Right, Right, Right] + [Right,
        Down, Down, Down] + [Down, Left, Left, Up] + [Up, Right, Right, Right] + [Right, Down, Down,
        Down], Position(5, 12), [Down, Down]);
    RepeatedLettersJoin9();
  }

  lemma RepeatedLettersJoin9()
    ensures "@-G-O-+|+-+|O||+-O-N-+|I|+-+|+-I-+|ES" + "|x"
        == "@-G-O-+|+-+|O||+-O-N-+|I|+-+|+-I-+|ES|x"
  {
  }

  lemma RepeatedLettersDedup()
    ensures Dedup([Position(3, 2), Position(3, 4), Position(3, 4), Position(0, 6), Position(0, 8),
        Position(2, 10), Position(2, 10), Position(4, 12), Position(5, 12)]) == [Position(3, 2),
        Position(3, 4), Position(0, 6), Position(0, 8), Position(2, 10), Position(4, 12), Position(5, 12)]
  {
    var s := [Position(3, 2), Position(3, 4), Position(3, 4), Position(0, 6), Position(0, 8),
        Position(2, 10), Position(2, 10), Position(4, 12), Position(5, 12)];
    assert Firsts(s, 8) == [Position(5, 12)] + Firsts(s, 9);
    assert Firsts(s, 7) == [Position(4, 12)] + Firsts(s, 8);
    assert s[..6][5] == s[6];
    assert Firsts(s, 6) == Firsts(s, 7);
    assert Firsts(s, 5) == [Position(2, 10)] + Firsts(s, 6);
    assert Firsts(s, 4) == [Position(0, 8)] + Firsts(s, 5);
    assert Firsts(s, 3) == [Position(0, 6)] + Firsts(s, 4);
    assert s[..2][1] == s[2];
    assert Firsts(s, 2) == Firsts(s, 3);
    assert Firsts(s, 1) == [Position(3, 4)] + Firsts(s, 2);
    assert Firsts(s, 0) == [Position(3, 2)] + Firsts(s, 1);
  }

  lemma RepeatedLettersWord()
    ensures Text(RepeatedLetters, [Position(3, 2), Position(3, 4), Position(0, 6), Position(0, 8),
        Position(2, 10), Position(4, 12), Position(5, 12)]) == "GOONIES"
  {
  }

  /** The outcome test.js expects for "Do not collect a letter from the same location twice". */
  lemma RepeatedLettersExample()
    ensures FindPathSpec(RepeatedLetters)
        == Ok(PathResult("@-G-O-+|+-+|O||+-O-N-+|I|+-+|+-I-+|ES|x", "GOONIES"))
  {
    RepeatedLettersStartLocated();
    RepeatedLettersEndLocated();
    RepeatedLettersWalk9();
    RepeatedLettersArrive9();
    RepeatedLettersBound();
    FindPathFollowing(Resolve, RepeatedLetters, Position(3, 0), RepeatedLettersMoves);
    RepeatedLettersRoute9();
    RepeatedLettersDedup();
    RepeatedLettersWord();
  }

  // test.js:81, "Keep direction, even in a compact space"

  const Compact: Grid := [
      [" ", "+", "-", "L", "-", "+"],
      [" ", "|", " ", " ", "+", "A", "-", "+"],
      ["@", "B", "+", " ", "+", "+", " ", "H"],
      [" ", "+", "+", " ", " ", " ", " ", "x"]
    ]

  lemma CompactStartLocated()
    ensures Locate(Compact, START) == Ok(Position(2, 0))
  {
    forall i | 0 <= i < |Compact| && i != 2
      ensures START !in Compact[i]
    {
      if i == 0 {
      } else if i == 1 {
      } else {
      }
    }
    LocateAt(Compact, START, Position(2, 0));
  }

  lemma CompactEndLocated()
    ensures Locate(Compact, END) == Ok(Position(3, 7))
  {
    forall i | 0 <= i < |Compact| && i != 3
      ensures END !in Compact[i]
    {
      if i == 0 {
      } else if i == 1 {
      } else {
      }
    }
    LocateAt(Compact, END, Position(3, 7));
  }

  const CompactMoves: seq<Direction> :=
    [Right, Right, Down, Left]
    + [Up, Up, Up, Right]
    + [Right, Right, Right, Down]
    + [Down, Left, Up, Right]
    + [Right, Right, Down, Down]

  lemma CompactMove0()
    ensures Moves(Resolve, Compact, Position(2, 0), None, Right)
  {
    SetsOff(Compact, Position(2, 0), Right);
  }

  lemma CompactMove1()
    ensures Moves(Resolve, Compact, Position(2, 1), Some(Right), Right)
  {
    KeepsHeading(Compact, Position(2, 1), Right, "B");
  }

  lemma CompactMove2()
    ensures Moves(Resolve, Compact, Position(2, 2), Some(Right), Down)
  {
    TurnsTo(Compact, Position(2, 2), Right, Down);
  }

  lemma CompactMove3()
    ensures Moves(Resolve, Compact, Position(3, 2), Some(Down), Left)
  {
    TurnsTo(Compact, Position(3, 2), Down, Left);
  }

  lemma CompactMove4()
    ensures Moves(Resolve, Compact, Position(3, 1), Some(Left), Up)
  {
    TurnsTo(Compact, Position(3, 1), Left, Up);
  }

  lemma CompactMove5()
    ensures Moves(Resolve, Compact, Position(2, 1), Some(Up), Up)
  {
    KeepsHeading(Compact, Position(2, 1), Up, "B");
  }

  lemma CompactMove6()
    ensures Moves(Resolve, Compact, Position(1, 1), Some(Up), Up)
  {
    KeepsHeading(Compact, Position(1, 1), Up, "|");
  }

  lemma CompactMove7()
    ensures Moves(Resolve, Compact, Position(0, 1), Some(Up), Right)
  {
    TurnsTo(Compact, Position(0, 1), Up, Right);
  }

  lemma CompactMove8()
    ensures Moves(Resolve, Compact, Position(0, 2), Some(Right), Right)
  {
    KeepsHeading(Compact, Position(0, 2), Right, "-");
  }

  lemma CompactMove9()
    ensures Moves(Resolve, Compact, Position(0, 3), Some(Right), Right)
  {
    KeepsHeading(Compact, Position(0, 3), Right, "L");
  }

  lemma CompactMove10()
    ensures Moves(Resolve, Compact, Position(0, 4), Some(Right), Right)
  {
    KeepsHeading(Compact, Position(0, 4), Right, "-");
  }

  lemma CompactMove11()
    ensures Moves(Resolve, Compact, Position(0, 5), Some(Right), Down)
  {
    TurnsTo(Compact, Position(0, 5), Right, Down);
  }

  lemma CompactMove12()
    ensures Moves(Resolve, Compact, Position(1, 5), Some(Down), Down)
  {
    KeepsHeading(Compact, Position(1, 5), Down, "A");
  }

  lemma CompactMove13()
    ensures Moves(Resolve, Compact, Position(2, 5), Some(Down), Left)
  {
    TurnsTo(Compact, Position(2, 5), Down, Left);
  }

  lemma CompactMove14()
    ensures Moves(Resolve, Compact, Position(2, 4), Some(Left), Up)
  {
    TurnsTo(Compact, Position(2, 4), Left, Up);
  }

  lemma CompactMove15()
    ensures Moves(Resolve, Compact, Position(1, 4), Some(Up), Right)
  {
    TurnsTo(Compact, Position(1, 4), Up, Right);
  }

  lemma CompactMove16()
    ensures Moves(Resolve, Compact, Position(1, 5), Some(Right), Right)
  {
    KeepsHeading(Compact, Position(1, 5), Right, "A");
  }

  lemma CompactMove17()
    ensures Moves(Resolve, Compact, Position(1, 6), Some(Right), Right)
  {
    KeepsHeading(Compact, Position(1, 6), Right, "-");
  }

  lemma CompactMove18()
    ensures Moves(Resolve, Compact, Position(1, 7), Some(Right), Down)
  {
    TurnsTo(Compact, Position(1, 7), Right, Down);
  }

  lemma CompactMove19()
    ensures Moves(Resolve, Compact, Position(2, 7), Some(Down), Down)
  {
    KeepsHeading(Compact, Position(2, 7), Down, "H");
  }

  lemma CompactLeg0()
    ensures Follows(Resolve, Compact, Position(2, 0), None, [Right, Right, Down, Left])
  {
    assert Follows(Resolve, Compact, Position(3, 2), Some(Down), [Left]) by {
      CompactMove3();
    }
    assert Follows(Resolve, Compact, Position(2, 2), Some(Right), [Down, Left]) by {
      CompactMove2();
    }
    assert Follows(Resolve, Compact, Position(2, 1), Some(Right), [Right, Down, Left]) by {
      CompactMove1();
    }
    CompactMove0();
  }

  lemma CompactLegEnd0()
    ensures End(Position(2, 0), [Right, Right, Down, Left]) == Position(3, 1)
  {
  }

  lemma CompactLeg1()
    ensures Follows(Resolve, Compact, Position(3, 1), Some(Left), [Up, Up, Up, Right])
  {
    assert Follows(Resolve, Compact, Position(0, 1), Some(Up), [Right]) by {
      CompactMove7();
    }
    assert Follows(Resolve, Compact, Position(1, 1), Some(Up), [Up, Right]) by {
      CompactMove6();
    }
    assert Follows(Resolve, Compact, Position(2, 1), Some(Up), [Up, Up, Right]) by {
      CompactMove5();
    }
    CompactMove4();
  }

  lemma CompactLegEnd1()
    ensures End(Position(3, 1), [Up, Up, Up, Right]) == Position(0, 2)
  {
  }

  lemma CompactLeg2()
    ensures Follows(Resolve, Compact, Position(0, 2), Some(Right), [Right, Right, Right, Down])
  {
    assert Follows(Resolve, Compact, Position(0, 5), Some(Right), [Down]) by {
      CompactMove11();
    }
    assert Follows(Resolve, Compact, Position(0, 4), Some(Right), [Right, Down]) by {
      CompactMove10();
    }
    assert Follows(Resolve, Compact, Position(0, 3), Some(Right), [Right, Right, Down]) by {
      CompactMove9();
    }
    CompactMove8();
  }

  lemma CompactLegEnd2()
    ensures End(Position(0, 2), [Right, Right, Right, Down]) == Position(1, 5)
  {
  }

  lemma CompactLeg3()
    ensures Follows(Resolve, Compact, Position(1, 5), Some(Down), [Down, Left, Up, Right])
  {
    assert Follows(Resolve, Compact, Position(1, 4), Some(Up), [Right]) by {
      CompactMove15();
    }
    assert Follows(Resolve, Compact, Position(2, 4), Some(Left), [Up, Right]) by {
      CompactMove14();
    }
    assert Follows(Resolve, Compact, Position(2, 5), Some(Down), [Left, Up, Right]) by {
      CompactMove13();
    }
    CompactMove12();
  }

  lemma CompactLegEnd3()
    ensures End(Position(1, 5), [Down, Left, Up, Right]) == Position(1, 5)
  {
  }

  lemma CompactLeg4()
    ensures Follows(Resolve, Compact, Position(1, 5), Some(Right), [Right, Right, Down, Down])
  {
    assert Follows(Resolve, Compact, Position(2, 7), Some(Down), [Down]) by {
      CompactMove19();
    }
    assert Follows(Resolve, Compact, Position(1, 7), Some(Right), [Down, Down]) by {
      CompactMove18();
    }
    assert Follows(Resolve, Compact, Position(1, 6), Some(Right), [Right, Down, Down]) by {
      CompactMove17();
    }
    CompactMove16();
  }

  lemma CompactLegEnd4()
    ensures End(Position(1, 5), [Right, Right, Down, Down]) == Position(3, 7)
  {
  }

  lemma CompactArrive1()
    ensures End(Position(2, 0), [Right, Right, Down, Left] + [Up, Up, Up, Right]) == Position(0, 2)
  {
    CompactLegEnd0();
    CompactLegEnd1();
    StepsJoin(Position(2, 0), [Right, Right, Down, Left], Position(3, 1), [Up, Up, Up, Right]);
  }

  lemma CompactWalk1()
    ensures Follows(Resolve, Compact, Position(2, 0), None, [Right, Right, Down, Left] + [Up, Up, Up,
        Right])
  {
    CompactLeg0();
    CompactLegEnd0();
    CompactLeg1();
    FollowsJoin(Resolve, Compact, Position(2, 0), None, [Right, Right, Down, Left], Position(3, 1),
        [Up, Up, Up, Right]);
  }

  lemma CompactArrive2()
    ensures End(Position(2, 0), [Right, Right, Down, Left] + [Up, Up, Up, Right] + [Right, Right,
        Right, Down]) == Position(1, 5)
  {
    CompactArrive1();
    CompactLegEnd2();
    StepsJoin(Position(2, 0), [Right, Right, Down, Left] + [Up, Up, Up, Right], Position(0, 2),
        [Right, Right, Right, Down]);
  }

  lemma CompactWalk2()
    ensures Follows(Resolve, Compact, Position(2, 0), None, [Right, Right, Down, Left] + [Up, Up, Up,
        Right] + [Right, Right, Right, Down])
  {
    CompactWalk1();
    CompactArrive1();
    CompactLeg2();
    FollowsJoin(Resolve, Compact, Position(2, 0), None, [Right, Right, Down, Left] + [Up, Up, Up,
        Right], Position(0, 2), [Right, Right, Right, Down]);
  }

  lemma CompactArrive3()
    ensures End(Position(2, 0), [Right, Right, Down, Left] + [Up, Up, Up, Right] + [Right, Right,
        Right, Down] + [Down, Left, Up, Right]) == Position(1, 5)
  {
    CompactArrive2();
    CompactLegEnd3();
    StepsJoin(Position(2, 0), [Right, Right, Down, Left] + [Up, Up, Up, Right] + [Right, Right,
        Right, Down], Position(1, 5), [Down, Left, Up, Right]);
  }

  lemma CompactWalk3()
    ensures Follows(Resolve, Compact, Position(2, 0), None, [Right, Right, Down, Left] + [Up, Up, Up,
        Right] + [Right, Right, Right, Down] + [Down, Left, Up, Right])
  {
    CompactWalk2();
    CompactArrive2();
    CompactLeg3();
    FollowsJoin(Resolve, Compact, Position(2, 0), None, [Right, Right, Down, Left] + [Up, Up, Up,
        Right] + [Right, Right, Right, Down], Position(1, 5), [Down, Left, Up, Right]);
  }

  lemma CompactArrive4()
    ensures End(Position(2, 0), [Right, Right, Down, Left] + [Up, Up, Up, Right] + [Right, Right,
        Right, Down] + [Down, Left, Up, Right] + [Right, Right, Down, Down]) == Position(3, 7)
  {
    CompactArrive3();
    CompactLegEnd4();
    StepsJoin(Position(2, 0), [Right, Right, Down, Left] + [Up, Up, Up, Right] + [Right, Right,
        Right, Down] + [Down, Left, Up, Right], Position(1, 5), [Right, Right, Down, Down]);
  }

  lemma CompactWalk4()
    ensures Follows(Resolve, Compact, Position(2, 0), None, [Right, Right, Down, Left] + [Up, Up, Up,
        Right] + [Right, Right, Right, Down] + [Down, Left, Up, Right] + [Right, Right, Down, Down])
  {
    CompactWalk3();
    CompactArrive3();
    CompactLeg4();
    FollowsJoin(Resolve, Compact, Position(2, 0), None, [Right, Right, Down, Left] + [Up, Up, Up,
        Right] + [Right, Right, Right, Down] + [Down, Left, Up, Right], Position(1, 5), [Right,
        Right, Down, Down]);
  }

  lemma CompactBound()
    ensures |CompactMoves| < StepBound(Compact)
  {
    FieldCountCoversRow(Compact, 1);
  }

  lemma CompactLegSteps0()
    ensures Steps(Position(2, 0), [Right, Right, Down, Left]) == [Position(2, 1), Position(2, 2),
        Position(3, 2), Position(3, 1)]
  {
  }

  lemma CompactLegText0()
    ensures Text(Compact, [Position(2, 1), Position(2, 2), Position(3, 2), Position(3, 1)]) == "B+++"
  {
  }

  lemma CompactLegLetters0()
    ensures LetterPositions(Compact, [Position(2, 1), Position(2, 2), Position(3, 2), Position(3, 1)])
        == [Position(2, 1)]
  {
  }

  lemma CompactLegSteps1()
    ensures Steps(Position(3, 1), [Up, Up, Up, Right]) == [Position(2, 1), Position(1, 1),
        Position(0, 1), Position(0, 2)]
  {
  }

  lemma CompactLegText1()
    ensures Text(Compact, [Position(2, 1), Position(1, 1), Position(0, 1), Position(0, 2)]) == "B|+-"
  {
  }

  lemma CompactLegLetters1()
    ensures LetterPositions(Compact, [Position(2, 1), Position(1, 1), Position(0, 1), Position(0, 2)])
        == [Position(2, 1)]
  {
  }

  lemma CompactLegSteps2()
    ensures Steps(Position(0, 2), [Right, Right, Right, Down]) == [Position(0, 3), Position(0, 4),
        Position(0, 5), Position(1, 5)]
  {
  }

  lemma CompactLegText2()
    ensures Text(Compact, [Position(0, 3), Position(0, 4), Position(0, 5), Position(1, 5)]) == "L-+A"
  {
  }

  lemma CompactLegLetters2()
    ensures LetterPositions(Compact, [Position(0, 3), Position(0, 4), Position(0, 5), Position(1, 5)])
        == [Position(0, 3), Position(1, 5)]
  {
  }

  lemma CompactLegSteps3()
    ensures Steps(Position(1, 5), [Down, Left, Up, Right]) == [Position(2, 5), Position(2, 4),
        Position(1, 4), Position(1, 5)]
  {
  }

  lemma CompactLegText3()
    ensures Text(Compact, [Position(2, 5), Position(2, 4), Position(1, 4), Position(1, 5)]) == "+++A"
  {
  }

  lemma CompactLegLetters3()
    ensures LetterPositions(Compact, [Position(2, 5), Position(2, 4), Position(1, 4), Position(1, 5)])
        == [Position(1, 5)]
  {
  }

  lemma CompactLegSteps4()
    ensures Steps(Position(1, 5), [Right, Right, Down, Down]) == [Position(1, 6), Position(1, 7),
        Position(2, 7), Position(3, 7)]
  {
  }

  lemma CompactLegText4()
    ensures Text(Compact, [Position(1, 6), Position(1, 7), Position(2, 7), Position(3, 7)]) == "-+Hx"
  {
  }

  lemma CompactLegLetters4()
    ensures LetterPositions(Compact, [Position(1, 6), Position(1, 7), Position(2, 7), Position(3, 7)])
        == [Position(2, 7)]
  {
  }

  lemma CompactRoute0()
    ensures Text(Compact, [Position(2, 0)] + Steps(Position(2, 0), [Right, Right, Down, Left]))
        == "@B+++"
    ensures LetterPositions(Compact, [Position(2, 0)] + Steps(Position(2, 0), [Right, Right, Down,
        Left])) == [Position(2, 1)]
  {
    CompactLegSteps0();
    CompactLegText0();
    CompactLegLetters0();
    TextConcat(Compact, [Position(2, 0)], [Position(2, 1), Position(2, 2), Position(3, 2),
        Position(3, 1)]);
    LetterPositionsAppend(Compact, [Position(2, 0)], [Position(2, 1), Position(2, 2), Position(3, 2),
        Position(3, 1)]);
    CompactJoin0();
  }

  lemma CompactJoin0()
    ensures "@" + "B+++" == "@B+++"
  {
  }

  lemma CompactRoute1()
    ensures Text(Compact, [Position(2, 0)] + Steps(Position(2, 0), [Right, Right, Down, Left] + [Up,
        Up, Up, Right])) == "@B+++B|+-"
    ensures LetterPositions(Compact, [Position(2, 0)] + Steps(Position(2, 0), [Right, Right, Down,
        Left] + [Up, Up, Up, Right])) == [Position(2, 1), Position(2, 1)]
  {
    CompactLegSteps1();
    CompactLegText1();
    CompactLegLetters1();
    CompactRoute0();
    CompactLegEnd0();
    RouteJoin(Compact, Position(2, 0), [Right, Right, Down, Left], Position(3, 1), [Up, Up, Up,
        Right]);
    CompactJoin1();
  }

  lemma CompactJoin1()
    ensures "@B+++" + "B|+-" == "@B+++B|+-"
    ensures [Position(2, 1)] + [Position(2, 1)] == [Position(2, 1), Position(2, 1)]
  {
  }

  lemma CompactRoute2()
    ensures Text(Compact, [Position(2, 0)] + Steps(Position(2, 0), [Right, Right, Down, Left] + [Up,
        Up, Up, Right] + [Right, Right, Right, Down])) == "@B+++B|+-L-+A"
    ensures LetterPositions(Compact, [Position(2, 0)] + Steps(Position(2, 0), [Right, Right, Down,
        Left] + [Up, Up, Up, Right] + [Right, Right, Right, Down])) == [Position(2, 1),
        Position(2, 1), Position(0, 3), Position(1, 5)]
  {
    CompactLegSteps2();
    CompactLegText2();
    CompactLegLetters2();
    CompactRoute1();
    CompactArrive1();
    RouteJoin(Compact, Position(2, 0), [Right, Right, Down, Left] + [Up, Up, Up, Right],
        Position(0, 2), [Right, Right, Right, Down]);
    CompactJoin2();
  }

  lemma CompactJoin2()
    ensures "@B+++B|+-" + "L-+A" == "@B+++B|+-L-+A"
    ensures [Position(2, 1), Position(2, 1)] + [Position(0, 3), Position(1, 5)] == [Position(2, 1),
        Position(2, 1), Position(0, 3), Position(1, 5)]
  {
  }

  lemma CompactRoute3()
    ensures Text(Compact, [Position(2, 0)] + Steps(Position(2, 0), [Right, Right, Down, Left] + [Up,
        Up, Up, Right] + [Right, Right, Right, Down] + [Down, Left, Up, Right]))
        == "@B+++B|+-L-+A+++A"
    ensures LetterPositions(Compact, [Position(2, 0)] + Steps(Position(2, 0), [Right, Right, Down,
        Left] + [Up, Up, Up, Right] + [Right, Right, Right, Down] + [Down, Left, Up, Right]))
        == [Position(2, 1), Position(2, 1), Position(0, 3), Position(1, 5), Position(1, 5)]
  {
    CompactLegSteps3();
    CompactLegText3();
    CompactLegLetters3();
    CompactRoute2();
    CompactArrive2();
    RouteJoin(Compact, Position(2, 0), [Right, Right, Down, Left] + [Up, Up, Up, Right] + [Right,
        Right, Right, Down], Position(1, 5), [Down, Left, Up, Right]);
    CompactJoin3();
  }

  lemma CompactJoin3()
    ensures "@B+++B|+-L-+A" + "+++A" == "@B+++B|+-L-+A+++A"
    ensures [Position(2, 1), Position(2, 1), Position(0, 3), Position(1, 5)] + [Position(1, 5)]
        == [Position(2, 1), Position(2, 1), Position(0, 3), Position(1, 5), Position(1, 5)]
  {
  }

  lemma CompactRoute4()
    ensures Text(Compact, [Position(2, 0)] + Steps(Position(2, 0), [Right, Right, Down, Left] + [Up,
        Up, Up, Right] + [Right, Right, Right, Down] + [Down, Left, Up, Right] + [Right, Right,
        Down, Down])) == "@B+++B|+-L-+A+++A-+Hx"
    ensures LetterPositions(Compact, [Position(2, 0)] + Steps(Position(2, 0), [Right, Right, Down,
        Left] + [Up, Up, Up, Right] + [Right, Right, Right, Down] + [Down, Left, Up, Right]
        + [Right, Right, Down, Down])) == [Position(2, 1), Position(2, 1), Position(0, 3),
        Position(1, 5), Position(1, 5), Position(2, 7)]
  {
    CompactLegSteps4();
    CompactLegText4();
    CompactLegLetters4();
    CompactRoute3();
    CompactArrive3();
    RouteJoin(Compact, Position(2, 0), [Right, Right, Down, Left] + [Up, Up, Up, Right] + [Right,
        Right, Right, Down] + [Down, Left, Up, Right], Position(1, 5), [Right, Right, Down, Down]);
    CompactJoin4();
  }

  lemma CompactJoin4()
    ensures "@B+++B|+-L-+A+++A" + "-+Hx" == "@B+++B|+-L-+A+++A-+Hx"
    ensures [Position(2, 1), Position(2, 1), Position(0, 3), Position(1, 5), Position(1, 5)]
        + [Position(2, 7)] == [Position(2, 1), Position(2, 1), Position(0, 3), Position(1, 5),
        Position(1, 5), Position(2, 7)]
  {
  }

  lemma CompactDedup()
    ensures Dedup([Position(2, 1), Position(2, 1), Position(0, 3), Position(1, 5), Position(1, 5),
        Position(2, 7)]) == [Position(2, 1), Position(0, 3), Position(1, 5), Position(2, 7)]
  {
    var s := [Position(2, 1), Position(2, 1), Position(0, 3), Position(1, 5), Position(1, 5),
        Position(2, 7)];
    assert Firsts(s, 5) == [Position(2, 7)] + Firsts(s, 6);
    assert s[..4][3] == s[4];
    assert Firsts(s, 4) == Firsts(s, 5);
    assert Firsts(s, 3) == [Position(1, 5)] + Firsts(s, 4);
    assert Firsts(s, 2) == [Position(0, 3)] + Firsts(s, 3);
    assert s[..1][0] == s[1];
    assert Firsts(s, 1) == Firsts(s, 2);
    assert Firsts(s, 0) == [Position(2, 1)] + Firsts(s, 1);
  }

  lemma CompactWord()
    ensures Text(Compact, [Position(2, 1), Position(0, 3), Position(1, 5), Position(2, 7)]) == "BLAH"
  {
  }

  /** The outcome test.js expects for "Keep direction, even in a compact space". */
  lemma CompactExample()
    ensures FindPathSpec(Compact) == Ok(PathResult("@B+++B|+-L-+A+++A-+Hx", "BLAH"))
  {
    CompactStartLocated();
    CompactEndLocated();
    CompactWalk4();
    CompactArrive4();
    CompactBound();
    FindPathFollowing(Resolve, Compact, Position(2, 0), CompactMoves);
    CompactRoute4();
    CompactDedup();
    CompactWord();
  }

  // test.js:95, "Ignore stuff after end of path"

  const AfterEnd: Grid := [
      ["@", "-", "A", "-", "-", "+"],
      [" ", " ", " ", " ", " ", "|"],
      [" ", " ", " ", " ", " ", "+", "-", "B", "-", "-", "x", "-", "C", "-", "-", "D"]
    ]

  lemma AfterEndStartLocated()
    ensures Locate(AfterEnd, START) == Ok(Position(0, 0))
  {
    forall i | 0 <= i < |AfterEnd| && i != 0
      ensures START !in AfterEnd[i]
    {
      if i == 1 {
      } else {
      }
    }
    LocateAt(AfterEnd, START, Position(0, 0));
  }

  lemma AfterEndEndLocated()
    ensures Locate(AfterEnd, END) == Ok(Position(2, 10))
  {
    forall i | 0 <= i < |AfterEnd| && i != 2
      ensures END !in AfterEnd[i]
    {
      if i == 0 {
      } else {
      }
    }
    LocateAt(AfterEnd, END, Position(2, 10));
  }

  const AfterEndMoves: seq<Direction> :=
    [Right, Right, Right, Right]
    + [Right, Down, Down, Right]
    + [Right, Right, Right, Right]

  lemma AfterEndMove0()
    ensures Moves(Resolve, AfterEnd, Position(0, 0), None, Right)
  {
    SetsOff(AfterEnd, Position(0, 0), Right);
  }

  lemma AfterEndMove1()
    ensures Moves(Resolve, AfterEnd, Position(0, 1), Some(Right), Right)
  {
    KeepsHeading(AfterEnd, Position(0, 1), Right, "-");
  }

  lemma AfterEndMove2()
    ensures Moves(Resolve, AfterEnd, Position(0, 2), Some(Right), Right)
  {
    KeepsHeading(AfterEnd, Position(0, 2), Right, "A");
  }

  lemma AfterEndMove3()
    ensures Moves(Resolve, AfterEnd, Position(0, 3), Some(Right), Right)
  {
    KeepsHeading(AfterEnd, Position(0, 3), Right, "-");
  }

  lemma AfterEndMove4()
    ensures Moves(Resolve, AfterEnd, Position(0, 4), Some(Right), Right)
  {
    KeepsHeading(AfterEnd, Position(0, 4), Right, "-");
  }

  lemma AfterEndMove5()
    ensures Moves(Resolve, AfterEnd, Position(0, 5), Some(Right), Down)
  {
    TurnsTo(AfterEnd, Position(0, 5), Right, Down);
  }

  lemma AfterEndMove6()
    ensures Moves(Resolve, AfterEnd, Position(1, 5), Some(Down), Down)
  {
    KeepsHeading(AfterEnd, Position(1, 5), Down, "|");
  }

  lemma AfterEndMove7()
    ensures Moves(Resolve, AfterEnd, Position(2, 5), Some(Down), Right)
  {
    TurnsTo(AfterEnd, Position(2, 5), Down, Right);
  }

  lemma AfterEndMove8()
    ensures Moves(Resolve, AfterEnd, Position(2, 6), Some(Right), Right)
  {
    KeepsHeading(AfterEnd, Position(2, 6), Right, "-");
  }

  lemma AfterEndMove9()
    ensures Moves(Resolve, AfterEnd, Position(2, 7), Some(Right), Right)
  {
    KeepsHeading(AfterEnd, Position(2, 7), Right, "B");
  }

  lemma AfterEndMove10()
    ensures Moves(Resolve, AfterEnd, Position(2, 8), Some(Right), Right)
  {
    KeepsHeading(AfterEnd, Position(2, 8), Right, "-");
  }

  lemma AfterEndMove11()
    ensures Moves(Resolve, AfterEnd, Position(2, 9), Some(Right), Right)
  {
    KeepsHeading(AfterEnd, Position(2, 9), Right, "-");
  }

  lemma AfterEndLeg0()
    ensures Follows(Resolve, AfterEnd, Position(0, 0), None, [Right, Right, Right, Right])
  {
    assert Follows(Resolve, AfterEnd, Position(0, 3), Some(Right), [Right]) by {
      AfterEndMove3();
    }
    assert Follows(Resolve, AfterEnd, Position(0, 2), Some(Right), [Right, Right]) by {
      AfterEndMove2();
    }
    assert Follows(Resolve, AfterEnd, Position(0, 1), Some(Right), [Right, Right, Right]) by {
      AfterEndMove1();
    }
    AfterEndMove0();
  }

  lemma AfterEndLegEnd0()
    ensures End(Position(0, 0), [Right, Right, Right, Right]) == Position(0, 4)
  {
  }

  lemma AfterEndLeg1()
    ensures Follows(Resolve, AfterEnd, Position(0, 4), Some(Right), [Right, Down, Down, Right])
  {
    assert Follows(Resolve, AfterEnd, Position(2, 5), Some(Down), [Right]) by {
      AfterEndMove7();
    }
    assert Follows(Resolve, AfterEnd, Position(1, 5), Some(Down), [Down, Right]) by {
      AfterEndMove6();
    }
    assert Follows(Resolve, AfterEnd, Position(0, 5), Some(Right), [Down, Down, Right]) by {
      AfterEndMove5();
    }
    AfterEndMove4();
  }

  lemma AfterEndLegEnd1()
    ensures End(Position(0, 4), [Right, Down, Down, Right]) == Position(2, 6)
  {
  }

  lemma AfterEndLeg2()
    ensures Follows(Resolve, AfterEnd, Position(2, 6), Some(Right), [Right, Right, Right, Right])
  {
    assert Follows(Resolve, AfterEnd, Position(2, 9), Some(Right), [Right]) by {
      AfterEndMove11();
    }
    assert Follows(Resolve, AfterEnd, Position(2, 8), Some(Right), [Right, Right]) by {
      AfterEndMove10();
    }
    assert Follows(Resolve, AfterEnd, Position(2, 7), Some(Right), [Right, Right, Right]) by {
      AfterEndMove9();
    }
    AfterEndMove8();
  }

  lemma AfterEndLegEnd2()
    ensures End(Position(2, 6), [Right, Right, Right, Right]) == Position(2, 10)
  {
  }

  lemma AfterEndArrive1()
    ensures End(Position(0, 0), [Right, Right, Right, Right] + [Right, Down, Down, Right])
        == Position(2, 6)
  {
    AfterEndLegEnd0();
    AfterEndLegEnd1();
    StepsJoin(Position(0, 0), [Right, Right, Right, Right], Position(0, 4), [Right, Down, Down,
        Right]);
  }

  lemma AfterEndWalk1()
    ensures Follows(Resolve, AfterEnd, Position(0, 0), None, [Right, Right, Right, Right] + [Right,
        Down, Down, Right])
  {
    AfterEndLeg0();
    AfterEndLegEnd0();
    AfterEndLeg1();
    FollowsJoin(Resolve, AfterEnd, Position(0, 0), None, [Right, Right, Right, Right], Position(0, 4),
        [Right, Down, Down, Right]);
  }

  lemma AfterEndArrive2()
    ensures End(Position(0, 0), [Right, Right, Right, Right] + [Right, Down, Down, Right] + [Right,
        Right, Right, Right]) == Position(2, 10)
  {
    AfterEndArrive1();
    AfterEndLegEnd2();
    StepsJoin(Position(0, 0), [Right, Right, Right, Right] + [Right, Down, Down, Right],
        Position(2, 6), [Right, Right, Right, Right]);
  }

  lemma AfterEndWalk2()
    ensures Follows(Resolve, AfterEnd, Position(0, 0), None, [Right, Right, Right, Right] + [Right,
        Down, Down, Right] + [Right, Right, Right, Right])
  {
    AfterEndWalk1();
    AfterEndArrive1();
    AfterEndLeg2();
    FollowsJoin(Resolve, AfterEnd, Position(0, 0), None, [Right, Right, Right, Right] + [Right, Down,
        Down, Right], Position(2, 6), [Right, Right, Right, Right]);
  }

  lemma AfterEndBound()
    ensures |AfterEndMoves| < StepBound(AfterEnd)
  {
    FieldCountCoversRow(AfterEnd, 2);
  }

  lemma AfterEndLegSteps0()
    ensures Steps(Position(0, 0), [Right, Right, Right, Right]) == [Position(0, 1), Position(0, 2),
        Position(0, 3), Position(0, 4)]
  {
  }

  lemma AfterEndLegText0()
    ensures Text(AfterEnd, [Position(0, 1), Position(0, 2), Position(0, 3), Position(0, 4)]) == "-A--"
  {
  }

  lemma AfterEndLegLetters0()
    ensures LetterPositions(AfterEnd, [Position(0, 1), Position(0, 2), Position(0, 3), Position(0, 4)])
        == [Position(0, 2)]
  {
  }

  lemma AfterEndLegSteps1()
    ensures Steps(Position(0, 4), [Right, Down, Down, Right]) == [Position(0, 5), Position(1, 5),
        Position(2, 5), Position(2, 6)]
  {
  }

  lemma AfterEndLegText1()
    ensures Text(AfterEnd, [Position(0, 5), Position(1, 5), Position(2, 5), Position(2, 6)]) == "+|+-"
  {
  }

  lemma AfterEndLegLetters1()
    ensures LetterPositions(AfterEnd, [Position(0, 5), Position(1, 5), Position(2, 5), Position(2, 6)])
        == []
  {
  }

  lemma AfterEndLegSteps2()
    ensures Steps(Position(2, 6), [Right, Right, Right, Right]) == [Position(2, 7), Position(2, 8),
        Position(2, 9), Position(2, 10)]
  {
  }

  lemma AfterEndLegText2()
    ensures Text(AfterEnd, [Position(2, 7), Position(2, 8), Position(2, 9), Position(2, 10)]) == "B--x"
  {
  }

  lemma AfterEndLegLetters2()
    ensures LetterPositions(AfterEnd, [Position(2, 7), Position(2, 8), Position(2, 9), Position(2, 10)])
        == [Position(2, 7)]
  {
  }

  lemma AfterEndRoute0()
    ensures Text(AfterEnd, [Position(0, 0)] + Steps(Position(0, 0), [Right, Right, Right, Right]))
        == "@-A--"
    ensures LetterPositions(AfterEnd, [Position(0, 0)] + Steps(Position(0, 0), [Right, Right, Right,
        Right])) == [Position(0, 2)]
  {
    AfterEndLegSteps0();
    AfterEndLegText0();
    AfterEndLegLetters0();
    TextConcat(AfterEnd, [Position(0, 0)], [Position(0, 1), Position(0, 2), Position(0, 3),
        Position(0, 4)]);
    LetterPositionsAppend(AfterEnd, [Position(0, 0)], [Position(0, 1), Position(0, 2), Position(0, 3),
        Position(0, 4)]);
    AfterEndJoin0();
  }

  lemma AfterEndJoin0()
    ensures "@" + "-A--" == "@-A--"
  {
  }

  lemma AfterEndRoute1()
    ensures Text(AfterEnd, [Position(0, 0)] + Steps(Position(0, 0), [Right, Right, Right, Right]
        + [Right, Down, Down, Right])) == "@-A--+|+-"
    ensures LetterPositions(AfterEnd, [Position(0, 0)] + Steps(Position(0, 0), [Right, Right, Right,
        Right] + [Right, Down, Down, Right])) == [Position(0, 2)]
  {
    AfterEndLegSteps1();
    AfterEndLegText1();
    AfterEndLegLetters1();
    AfterEndRoute0();
    AfterEndLegEnd0();
    RouteJoin(AfterEnd, Position(0, 0), [Right, Right, Right, Right], Position(0, 4), [Right, Down,
        Down, Right]);
    AfterEndJoin1();
  }

  lemma AfterEndJoin1()
    ensures "@-A--" + "+|+-" == "@-A--+|+-"
  {
  }

  lemma AfterEndRoute2()
    ensures Text(AfterEnd, [Position(0, 0)] + Steps(Position(0, 0), [Right, Right, Right, Right]
        + [Right, Down, Down, Right] + [Right, Right, Right, Right])) == "@-A--+|+-B--x"
    ensures LetterPositions(AfterEnd, [Position(0, 0)] + Steps(Position(0, 0), [Right, Right, Right,
        Right] + [Right, Down, Down, Right] + [Right, Right, Right, Right])) == [Position(0, 2),
        Position(2, 7)]
  {
    AfterEndLegSteps2();
    AfterEndLegText2();
    AfterEndLegLetters2();
    AfterEndRoute1();
    AfterEndArrive1();
    RouteJoin(AfterEnd, Position(0, 0), [Right, Right, Right, Right] + [Right, Down, Down, Right],
        Position(2, 6), [Right, Right, Right, Right]);
    AfterEndJoin2();
  }

  lemma AfterEndJoin2()
    ensures "@-A--+|+-" + "B--x" == "@-A--+|+-B--x"
    ensures [Position(0, 2)] + [Position(2, 7)] == [Position(0, 2), Position(2, 7)]
  {
  }

  lemma AfterEndDedup()
    ensures Dedup([Position(0, 2), Position(2, 7)]) == [Position(0, 2), Position(2, 7)]
  {
    var s := [Position(0, 2), Position(2, 7)];
    assert Firsts(s, 1) == [Position(2, 7)] + Firsts(s, 2);
    assert Firsts(s, 0) == [Position(0, 2)] + Firsts(s, 1);
  }

  lemma AfterEndWord()
    ensures Text(AfterEnd, [Position(0, 2), Position(2, 7)]) == "AB"
  {
  }

  /** The outcome test.js expects for "Ignore stuff after end of path". */
  lemma AfterEndExample()
    ensures FindPathSpec(AfterEnd) == Ok(PathResult("@-A--+|+-B--x", "AB"))
  {
    AfterEndStartLocated();
    AfterEndEndLocated();
    AfterEndWalk2();
    AfterEndArrive2();
    AfterEndBound();
    FindPathFollowing(Resolve, AfterEnd, Position(0, 0), AfterEndMoves);
    AfterEndRoute2();
    AfterEndDedup();
    AfterEndWord();
  }

  // test.js:108, "Illegal glyphs in the matrix"

  const IllegalGlyph: Grid := [
      [" ", "+", "-", "\U{C3}\U{178}", "-", "+"],
      [" ", "|", " ", " ", "+", "A", "-", "+"],
      ["@", "B", "+", " ", "+", "+", " ", "H"],
      [" ", "+", "+", " ", " ", " ", " ", "x"]
    ]

  lemma IllegalGlyphStartLocated()
    ensures Locate(IllegalGlyph, START) == Ok(Position(2, 0))
  {
    forall i | 0 <= i < |IllegalGlyph| && i != 2
      ensures START !in IllegalGlyph[i]
    {
      if i == 0 {
      } else if i == 1 {
      } else {
      }
    }
    LocateAt(IllegalGlyph, START, Position(2, 0));
  }

  lemma IllegalGlyphEndLocated()
    ensures Locate(IllegalGlyph, END) == Ok(Position(3, 7))
  {
    forall i | 0 <= i < |IllegalGlyph| && i != 3
      ensures END !in IllegalGlyph[i]
    {
      if i == 0 {
      } else if i == 1 {
      } else {
      }
    }
    LocateAt(IllegalGlyph, END, Position(3, 7));
  }

  const IllegalGlyphMoves: seq<Direction> :=
    [Right, Right, Down, Left]
    + [Up, Up, Up, Right]

  lemma IllegalGlyphMove0()
    ensures Moves(Resolve, IllegalGlyph, Position(2, 0), None, Right)
  {
    SetsOff(IllegalGlyph, Position(2, 0), Right);
  }

  lemma IllegalGlyphMove1()
    ensures Moves(Resolve, IllegalGlyph, Position(2, 1), Some(Right), Right)
  {
    KeepsHeading(IllegalGlyph, Position(2, 1), Right, "B");
  }

  lemma IllegalGlyphMove2()
    ensures Moves(Resolve, IllegalGlyph, Position(2, 2), Some(Right), Down)
  {
    TurnsTo(IllegalGlyph, Position(2, 2), Right, Down);
  }

  lemma IllegalGlyphMove3()
    ensures Moves(Resolve, IllegalGlyph, Position(3, 2), Some(Down), Left)
  {
    TurnsTo(IllegalGlyph, Position(3, 2), Down, Left);
  }

  lemma IllegalGlyphMove4()
    ensures Moves(Resolve, IllegalGlyph, Position(3, 1), Some(Left), Up)
  {
    TurnsTo(IllegalGlyph, Position(3, 1), Left, Up);
  }

  lemma IllegalGlyphMove5()
    ensures Moves(Resolve, IllegalGlyph, Position(2, 1), Some(Up), Up)
  {
    KeepsHeading(IllegalGlyph, Position(2, 1), Up, "B");
  }

  lemma IllegalGlyphMove6()
    ensures Moves(Resolve, IllegalGlyph, Position(1, 1), Some(Up), Up)
  {
    KeepsHeading(IllegalGlyph, Position(1, 1), Up, "|");
  }

  lemma IllegalGlyphMove7()
    ensures Moves(Resolve, IllegalGlyph, Position(0, 1), Some(Up), Right)
  {
    TurnsTo(IllegalGlyph, Position(0, 1), Up, Right);
  }

  lemma IllegalGlyphLeg0()
    ensures Follows(Resolve, IllegalGlyph, Position(2, 0), None, [Right, Right, Down, Left])
  {
    assert Follows(Resolve, IllegalGlyph, Position(3, 2), Some(Down), [Left]) by {
      IllegalGlyphMove3();
    }
    assert Follows(Resolve, IllegalGlyph, Position(2, 2), Some(Right), [Down, Left]) by {
      IllegalGlyphMove2();
    }
    assert Follows(Resolve, IllegalGlyph, Position(2, 1), Some(Right), [Right, Down, Left]) by {
      IllegalGlyphMove1();
    }
    IllegalGlyphMove0();
  }

  lemma IllegalGlyphLegEnd0()
    ensures End(Position(2, 0), [Right, Right, Down, Left]) == Position(3, 1)
  {
  }

  lemma IllegalGlyphLeg1()
    ensures Follows(Resolve, IllegalGlyph, Position(3, 1), Some(Left), [Up, Up, Up, Right])
  {
    assert Follows(Resolve, IllegalGlyph, Position(0, 1), Some(Up), [Right]) by {
      IllegalGlyphMove7();
    }
    assert Follows(Resolve, IllegalGlyph, Position(1, 1), Some(Up), [Up, Right]) by {
      IllegalGlyphMove6();
    }
    assert Follows(Resolve, IllegalGlyph, Position(2, 1), Some(Up), [Up, Up, Right]) by {
      IllegalGlyphMove5();
    }
    IllegalGlyphMove4();
  }

  lemma IllegalGlyphLegEnd1()
    ensures End(Position(3, 1), [Up, Up, Up, Right]) == Position(0, 2)
  {
  }

  lemma IllegalGlyphArrive1()
    ensures End(Position(2, 0), [Right, Right, Down, Left] + [Up, Up, Up, Right]) == Position(0, 2)
  {
    IllegalGlyphLegEnd0();
    IllegalGlyphLegEnd1();
    StepsJoin(Position(2, 0), [Right, Right, Down, Left], Position(3, 1), [Up, Up, Up, Right]);
  }

  lemma IllegalGlyphWalk1()
    ensures Follows(Resolve, IllegalGlyph, Position(2, 0), None, [Right, Right, Down, Left] + [Up,
        Up, Up, Right])
  {
    IllegalGlyphLeg0();
    IllegalGlyphLegEnd0();
    IllegalGlyphLeg1();
    FollowsJoin(Resolve, IllegalGlyph, Position(2, 0), None, [Right, Right, Down, Left],
        Position(3, 1), [Up, Up, Up, Right]);
  }

  lemma IllegalGlyphBound()
    ensures |IllegalGlyphMoves| < StepBound(IllegalGlyph)
  {
    FieldCountCoversRow(IllegalGlyph, 1);
  }

  lemma IllegalGlyphStops()
    ensures Resolve(IllegalGlyph, Position(0, 2), Some(Right), "-") == Err(BrokenPath)
  {
    StraightOrBend(IllegalGlyph, Position(0, 2), Right, "-");
  }

  lemma IllegalGlyphHeading()
    ensures HeadingAt(None, IllegalGlyphMoves, |IllegalGlyphMoves|) == Some(Right)
  {
  }

  lemma IllegalGlyphStopsAt()
    ensures End(Position(2, 0), IllegalGlyphMoves) == Position(0, 2) && InBounds(IllegalGlyph,
        Position(0, 2))
    ensures IllegalGlyph[0][2] == "-"
    ensures Resolve(IllegalGlyph, Position(0, 2), HeadingAt(None, IllegalGlyphMoves,
        |IllegalGlyphMoves|), "-") == Err(BrokenPath)
  {
    IllegalGlyphArrive1();
    IllegalGlyphHeading();
    IllegalGlyphStops();
  }

  /** The outcome test.js expects for "Illegal glyphs in the matrix". */
  lemma IllegalGlyphExample()
    ensures FindPathSpec(IllegalGlyph) == Err(BrokenPath)
  {
    IllegalGlyphStartLocated();
    IllegalGlyphEndLocated();
    IllegalGlyphWalk1();
    IllegalGlyphBound();
    IllegalGlyphStopsAt();
    FindPathStopsFollowing(Resolve, IllegalGlyph, Position(2, 0), IllegalGlyphMoves, BrokenPath);
  }

  // test.js:122, "Missing start glyph"

  const MissingStart: Grid := [
      [" ", " ", " ", "-", "A", "-", "-", "-", "+"],
      [" ", " ", " ", " ", " ", " ", " ", " ", "|"],
      ["x", "-", "B", "-", "+", " ", " ", " ", "C"],
      [" ", " ", " ", " ", "|", " ", " ", " ", "|"],
      [" ", " ", " ", " ", "+", "-", "-", "-", "+"]
    ]

  lemma MissingStartStartRow0()
    ensures Occurrences(MissingStart[0], START) == 0
  {
  }

  lemma MissingStartStartRow1()
    ensures Occurrences(MissingStart[1], START) == 0
  {
  }

  lemma MissingStartStartRow2()
    ensures Occurrences(MissingStart[2], START) == 0
  {
  }

  lemma MissingStartStartRow3()
    ensures Occurrences(MissingStart[3], START) == 0
  {
  }

  lemma MissingStartStartRow4()
    ensures Occurrences(MissingStart[4], START) == 0
  {
  }

  lemma MissingStartStartCount()
    ensures Total(MissingStart, START) == 0
  {
    forall k | 0 <= k < |MissingStart|
      ensures Occurrences(MissingStart[k], START) == 0
    {
      if k == 0 {
        MissingStartStartRow0();
      } else if k == 1 {
        MissingStartStartRow1();
      } else if k == 2 {
        MissingStartStartRow2();
      } else if k == 3 {
        MissingStartStartRow3();
      } else {
        MissingStartStartRow4();
      }
    }
    TotalOfCounts(MissingStart, START, [0, 0, 0, 0, 0]);
  }

  lemma MissingStartStartRejected()
    ensures Locate(MissingStart, START) == Err(MissingStartGlyph)
  {
    MissingStartStartCount();
  }

  /** The outcome test.js expects for "Missing start glyph". */
  lemma MissingStartExample()
    ensures FindPathSpec(MissingStart) == Err(MissingStartGlyph)
  {
    MissingStartStartRejected();
  }

  // test.js:136, "Missing end glyph"

  const MissingEnd: Grid := [
      [" ", "@", "-", "-", "A", "-", "-", "-", "+"],
      [" ", " ", " ", " ", " ", " ", " ", " ", "|"],
      [" ", " ", "B", "-", "+", " ", " ", " ", "C"],
      [" ", " ", " ", " ", "|", " ", " ", " ", "|"],
      [" ", " ", " ", " ", "+", "-", "-", "-", "+"]
    ]

  lemma MissingEndStartLocated()
    ensures Locate(MissingEnd, START) == Ok(Position(0, 1))
  {
    forall i | 0 <= i < |MissingEnd| && i != 0
      ensures START !in MissingEnd[i]
    {
      if i == 1 {
      } else if i == 2 {
      } else if i == 3 {
      } else {
      }
    }
    LocateAt(MissingEnd, START, Position(0, 1));
  }

  lemma MissingEndEndRow0()
    ensures Occurrences(MissingEnd[0], END) == 0
  {
  }

  lemma MissingEndEndRow1()
    ensures Occurrences(MissingEnd[1], END) == 0
  {
  }

  lemma MissingEndEndRow2()
    ensures Occurrences(MissingEnd[2], END) == 0
  {
  }

  lemma MissingEndEndRow3()
    ensures Occurrences(MissingEnd[3], END) == 0
  {
  }

  lemma MissingEndEndRow4()
    ensures Occurrences(MissingEnd[4], END) == 0
  {
  }

  lemma MissingEndEndCount()
    ensures Total(MissingEnd, END) == 0
  {
    forall k | 0 <= k < |MissingEnd|
      ensures Occurrences(MissingEnd[k], END) == 0
    {
      if k == 0 {
        MissingEndEndRow0();
      } else if k == 1 {
        MissingEndEndRow1();
      } else if k == 2 {
        MissingEndEndRow2();
      } else if k == 3 {
        MissingEndEndRow3();
      } else {
        MissingEndEndRow4();
      }
    }
    TotalOfCounts(MissingEnd, END, [0, 0, 0, 0, 0]);
  }

  lemma MissingEndEndRejected()
    ensures Locate(MissingEnd, END) == Err(MissingEndGlyph)
  {
    MissingEndEndCount();
  }

  /** The outcome test.js expects for "Missing end glyph". */
  lemma MissingEndExample()
    ensures FindPathSpec(MissingEnd) == Err(MissingEndGlyph)
  {
    MissingEndStartLocated();
    MissingEndEndRejected();
  }

  // test.js:150, "Multiple start glyphs"

  const MultipleStarts: Grid := [
      [" ", "@", "-", "-", "A", "-", "@", "-", "+"],
      [" ", " ", " ", " ", " ", " ", " ", " ", "|"],
      ["x", "-", "B", "-", "+", " ", " ", " ", "C"],
      [" ", " ", " ", " ", "|", " ", " ", " ", "|"],
      [" ", " ", " ", " ", "+", "-", "-", "-", "+"]
    ]

  lemma MultipleStartsStartRow0()
    ensures Occurrences(MultipleStarts[0], START) == 2
  {
  }

  lemma MultipleStartsStartRow1()
    ensures Occurrences(MultipleStarts[1], START) == 0
  {
  }

  lemma MultipleStartsStartRow2()
    ensures Occurrences(MultipleStarts[2], START) == 0
  {
  }

  lemma MultipleStartsStartRow3()
    ensures Occurrences(MultipleStarts[3], START) == 0
  {
  }

  lemma MultipleStartsStartRow4()
    ensures Occurrences(MultipleStarts[4], START) == 0
  {
  }

  lemma MultipleStartsStartCount()
    ensures Total(MultipleStarts, START) == 2
  {
    forall k | 0 <= k < |MultipleStarts|
      ensures Occurrences(MultipleStarts[k], START) == if k == 0 then 2 else 0
    {
      if k == 0 {
        MultipleStartsStartRow0();
      } else if k == 1 {
        MultipleStartsStartRow1();
      } else if k == 2 {
        MultipleStartsStartRow2();
      } else if k == 3 {
        MultipleStartsStartRow3();
      } else {
        MultipleStartsStartRow4();
      }
    }
    TotalOfCounts(MultipleStarts, START, [2, 0, 0, 0, 0]);
  }

  lemma MultipleStartsStartRejected()
    ensures Locate(MultipleStarts, START) == Err(MultipleStartGlyphs(2))
  {
    MultipleStartsStartCount();
  }

  /** The outcome test.js expects for "Multiple start glyphs". */
  lemma MultipleStartsExample()
    ensures FindPathSpec(MultipleStarts) == Err(MultipleStartGlyphs(2))
  {
    MultipleStartsStartRejected();
  }

  // test.js:165, "Multiple end glyphs"

  const MultipleEnds: Grid := [
      [" ", "@", "-", "-", "A", "-", "-", "-", "+"],
      [" ", " ", " ", " ", " ", " ", " ", " ", "|"],
      ["x", "x", "B", "-", "+", " ", " ", " ", "C"],
      [" ", " ", " ", " ", "|", " ", " ", " ", "|"],
      [" ", " ", " ", " ", "+", "-", "-", "-", "+"]
    ]

  lemma MultipleEndsStartLocated()
    ensures Locate(MultipleEnds, START) == Ok(Position(0, 1))
  {
    forall i | 0 <= i < |MultipleEnds| && i != 0
      ensures START !in MultipleEnds[i]
    {
      if i == 1 {
      } else if i == 2 {
      } else if i == 3 {
      } else {
      }
    }
    LocateAt(MultipleEnds, START, Position(0, 1));
  }

  lemma MultipleEndsEndRow0()
    ensures Occurrences(MultipleEnds[0], END) == 0
  {
  }

  lemma MultipleEndsEndRow1()
    ensures Occurrences(MultipleEnds[1], END) == 0
  {
  }

  lemma MultipleEndsEndRow2()
    ensures Occurrences(MultipleEnds[2], END) == 2
  {
  }

  lemma MultipleEndsEndRow3()
    ensures Occurrences(MultipleEnds[3], END) == 0
  {
  }

  lemma MultipleEndsEndRow4()
    ensures Occurrences(MultipleEnds[4], END) == 0
  {
  }

  lemma MultipleEndsEndCount()
    ensures Total(MultipleEnds, END) == 2
  {
    forall k | 0 <= k < |MultipleEnds|
      ensures Occurrences(MultipleEnds[k], END) == if k == 2 then 2 else 0
    {
      if k == 0 {
        MultipleEndsEndRow0();
      } else if k == 1 {
        MultipleEndsEndRow1();
      } else if k == 2 {
        MultipleEndsEndRow2();
      } else if k == 3 {
        MultipleEndsEndRow3();
      } else {
        MultipleEndsEndRow4();
      }
    }
    TotalOfCounts(MultipleEnds, END, [0, 0, 2, 0, 0]);
  }

  lemma MultipleEndsEndRejected()
    ensures Locate(MultipleEnds, END) == Err(MultipleEndGlyphs(2))
  {
    MultipleEndsEndCount();
  }

  /** The outcome test.js expects for "Multiple end glyphs". */
  lemma MultipleEndsExample()
    ensures FindPathSpec(MultipleEnds) == Err(MultipleEndGlyphs(2))
  {
    MultipleEndsStartLocated();
    MultipleEndsEndRejected();
  }

  // test.js:180, "Broken path with multiple start glyphs"

  const BrokenMultipleStarts: Grid := [
      ["@", "-", "-", "A", "-", "-", "-", "+"],
      [" ", " ", " ", " ", " ", " ", " ", " ", " ", " ", "|"],
      [" ", " ", " ", " ", " ", " ", " ", " ", " ", " ", "C"],
      [" ", " ", " ", " ", " ", " ", " ", " ", " ", " ", "x"],
      [" ", " ", " ", " ", " ", " ", "@", "-", "B", "-", "+"]
    ]

  lemma BrokenMultipleStartsStartRow0()
    ensures Occurrences(BrokenMultipleStarts[0], START) == 1
  {
  }

  lemma BrokenMultipleStartsStartRow1()
    ensures Occurrences(BrokenMultipleStarts[1], START) == 0
  {
  }

  lemma BrokenMultipleStartsStartRow2()
    ensures Occurrences(BrokenMultipleStarts[2], START) == 0
  {
  }

  lemma BrokenMultipleStartsStartRow3()
    ensures Occurrences(BrokenMultipleStarts[3], START) == 0
  {
  }

  lemma BrokenMultipleStartsStartRow4()
    ensures Occurrences(BrokenMultipleStarts[4], START) == 1
  {
  }

  lemma BrokenMultipleStartsStartCount()
    ensures Total(BrokenMultipleStarts, START) == 2
  {
    forall k | 0 <= k < |BrokenMultipleStarts|
      ensures Occurrences(BrokenMultipleStarts[k], START) == if k == 0 then 1 else if k == 4 then 1 else 0
    {
      if k == 0 {
        BrokenMultipleStartsStartRow0();
      } else if k == 1 {
        BrokenMultipleStartsStartRow1();
      } else if k == 2 {
        BrokenMultipleStartsStartRow2();
      } else if k == 3 {
        BrokenMultipleStartsStartRow3();
      } else {
        BrokenMultipleStartsStartRow4();
      }
    }
    TotalOfCounts(BrokenMultipleStarts, START, [1, 0, 0, 0, 1]);
  }

  lemma BrokenMultipleStartsStartRejected()
    ensures Locate(BrokenMultipleStarts, START) == Err(MultipleStartGlyphs(2))
  {
    BrokenMultipleStartsStartCount();
  }

  /** The outcome test.js expects for "Broken path with multiple start glyphs". */
  lemma BrokenMultipleStartsExample()
    ensures FindPathSpec(BrokenMultipleStarts) == Err(MultipleStartGlyphs(2))
  {
    BrokenMultipleStartsStartRejected();
  }

  // test.js:195, "Broken path"

  const BrokenTrack: Grid := [
      ["@", "-", "-", "A", "-", "-", "-", "+"],
      [" ", " ", " ", " ", " ", " ", " ", " ", " ", " ", "|"],
      [" ", " ", " ", " ", " ", " ", " ", "x", " ", " ", "C"],
      [" ", " ", " ", " ", " ", " ", " ", "|", " ", " ", "|"],
      [" ", " ", " ", " ", " ", " ", " ", "+", "B", "-", "+"]
    ]

  lemma BrokenTrackStartLocated()
    ensures Locate(BrokenTrack, START) == Ok(Position(0, 0))
  {
    forall i | 0 <= i < |BrokenTrack| && i != 0
      ensures START !in BrokenTrack[i]
    {
      if i == 1 {
      } else if i == 2 {
      } else if i == 3 {
      } else {
      }
    }
    LocateAt(BrokenTrack, START, Position(0, 0));
  }

  lemma BrokenTrackEndLocated()
    ensures Locate(BrokenTrack, END) == Ok(Position(2, 7))
  {
    forall i | 0 <= i < |BrokenTrack| && i != 2
      ensures END !in BrokenTrack[i]
    {
      if i == 0 {
      } else if i == 1 {
      } else if i == 3 {
      } else {
      }
    }
    LocateAt(BrokenTrack, END, Position(2, 7));
  }

  const BrokenTrackMoves: seq<Direction> :=
    [Right, Right, Right, Right]
    + [Right, Right, Right]

  lemma BrokenTrackMove0()
    ensures Moves(Resolve, BrokenTrack, Position(0, 0), None, Right)
  {
    SetsOff(BrokenTrack, Position(0, 0), Right);
  }

  lemma BrokenTrackMove1()
    ensures Moves(Resolve, BrokenTrack, Position(0, 1), Some(Right), Right)
  {
    KeepsHeading(BrokenTrack, Position(0, 1), Right, "-");
  }

  lemma BrokenTrackMove2()
    ensures Moves(Resolve, BrokenTrack, Position(0, 2), Some(Right), Right)
  {
    KeepsHeading(BrokenTrack, Position(0, 2), Right, "-");
  }

  lemma BrokenTrackMove3()
    ensures Moves(Resolve, BrokenTrack, Position(0, 3), Some(Right), Right)
  {
    KeepsHeading(BrokenTrack, Position(0, 3), Right, "A");
  }

  lemma BrokenTrackMove4()
    ensures Moves(Resolve, BrokenTrack, Position(0, 4), Some(Right), Right)
  {
    KeepsHeading(BrokenTrack, Position(0, 4), Right, "-");
  }

  lemma BrokenTrackMove5()
    ensures Moves(Resolve, BrokenTrack, Position(0, 5), Some(Right), Right)
  {
    KeepsHeading(BrokenTrack, Position(0, 5), Right, "-");
  }

  lemma BrokenTrackMove6()
    ensures Moves(Resolve, BrokenTrack, Position(0, 6), Some(Right), Right)
  {
    KeepsHeading(BrokenTrack, Position(0, 6), Right, "-");
  }

  lemma BrokenTrackLeg0()
    ensures Follows(Resolve, BrokenTrack, Position(0, 0), None, [Right, Right, Right, Right])
  {
    assert Follows(Resolve, BrokenTrack, Position(0, 3), Some(Right), [Right]) by {
      BrokenTrackMove3();
    }
    assert Follows(Resolve, BrokenTrack, Position(0, 2), Some(Right), [Right, Right]) by {
      BrokenTrackMove2();
    }
    assert Follows(Resolve, BrokenTrack, Position(0, 1), Some(Right), [Right, Right, Right]) by {
      BrokenTrackMove1();
    }
    BrokenTrackMove0();
  }

  lemma BrokenTrackLegEnd0()
    ensures End(Position(0, 0), [Right, Right, Right, Right]) == Position(0, 4)
  {
  }

  lemma BrokenTrackLeg1()
    ensures Follows(Resolve, BrokenTrack, Position(0, 4), Some(Right), [Right, Right, Right])
  {
    assert Follows(Resolve, BrokenTrack, Position(0, 6), Some(Right), [Right]) by {
      BrokenTrackMove6();
    }
    assert Follows(Resolve, BrokenTrack, Position(0, 5), Some(Right), [Right, Right]) by {
      BrokenTrackMove5();
    }
    BrokenTrackMove4();
  }

  lemma BrokenTrackLegEnd1()
    ensures End(Position(0, 4), [Right, Right, Right]) == Position(0, 7)
  {
  }

  lemma BrokenTrackArrive1()
    ensures End(Position(0, 0), [Right, Right, Right, Right] + [Right, Right, Right])
        == Position(0, 7)
  {
    BrokenTrackLegEnd0();
    BrokenTrackLegEnd1();
    StepsJoin(Position(0, 0), [Right, Right, Right, Right], Position(0, 4), [Right, Right, Right]);
  }

  lemma BrokenTrackWalk1()
    ensures Follows(Resolve, BrokenTrack, Position(0, 0), None, [Right, Right, Right, Right]
        + [Right, Right, Right])
  {
    BrokenTrackLeg0();
    BrokenTrackLegEnd0();
    BrokenTrackLeg1();
    FollowsJoin(Resolve, BrokenTrack, Position(0, 0), None, [Right, Right, Right, Right],
        Position(0, 4), [Right, Right, Right]);
  }

  lemma BrokenTrackBound()
    ensures |BrokenTrackMoves| < StepBound(BrokenTrack)
  {
    FieldCountCoversRow(BrokenTrack, 1);
  }

  lemma BrokenTrackStops()
    ensures Resolve(BrokenTrack, Position(0, 7), Some(Right), "+") == Err(BrokenPath)
  {
    TurnVerdicts(BrokenTrack, Position(0, 7), Right);
  }

  lemma BrokenTrackHeading()
    ensures HeadingAt(None, BrokenTrackMoves, |BrokenTrackMoves|) == Some(Right)
  {
  }

  lemma BrokenTrackStopsAt()
    ensures End(Position(0, 0), BrokenTrackMoves) == Position(0, 7) && InBounds(BrokenTrack,
        Position(0, 7))
    ensures BrokenTrack[0][7] == "+"
    ensures Resolve(BrokenTrack, Position(0, 7), HeadingAt(None, BrokenTrackMoves,
        |BrokenTrackMoves|), "+") == Err(BrokenPath)
  {
    BrokenTrackArrive1();
    BrokenTrackHeading();
    BrokenTrackStops();
  }

  /** The outcome test.js expects for "Broken path". */
  lemma BrokenTrackExample()
    ensures FindPathSpec(BrokenTrack) == Err(BrokenPath)
  {
    BrokenTrackStartLocated();
    BrokenTrackEndLocated();
    BrokenTrackWalk1();
    BrokenTrackBound();
    BrokenTrackStopsAt();
    FindPathStopsFollowing(Resolve, BrokenTrack, Position(0, 0), BrokenTrackMoves, BrokenPath);
  }

  // test.js:210, "Double paths, double everything"

  const DoubleEverything: Grid := [
      [" ", "@", "-", "-", "A", "-", "-", "x"],
      [" "],
      ["x", "-", "B", "-", "+"],
      [" ", " ", " ", " ", "|"],
      [" ", " ", " ", " ", "@"]
    ]

  lemma DoubleEverythingStartRow0()
    ensures Occurrences(DoubleEverything[0], START) == 1
  {
  }

  lemma DoubleEverythingStartRow1()
    ensures Occurrences(DoubleEverything[1], START) == 0
  {
  }

  lemma DoubleEverythingStartRow2()
    ensures Occurrences(DoubleEverything[2], START) == 0
  {
  }

  lemma DoubleEverythingStartRow3()
    ensures Occurrences(DoubleEverything[3], START) == 0
  {
  }

  lemma DoubleEverythingStartRow4()
    ensures Occurrences(DoubleEverything[4], START) == 1
  {
  }

  lemma DoubleEverythingStartCount()
    ensures Total(DoubleEverything, START) == 2
  {
    forall k | 0 <= k < |DoubleEverything|
      ensures Occurrences(DoubleEverything[k], START) == if k == 0 then 1 else if k == 4 then 1 else 0
    {
      if k == 0 {
        DoubleEverythingStartRow0();
      } else if k == 1 {
        DoubleEverythingStartRow1();
      } else if k == 2 {
        DoubleEverythingStartRow2();
      } else if k == 3 {
        DoubleEverythingStartRow3();
      } else {
        DoubleEverythingStartRow4();
      }
    }
    TotalOfCounts(DoubleEverything, START, [1, 0, 0, 0, 1]);
  }

  lemma DoubleEverythingStartRejected()
    ensures Locate(DoubleEverything, START) == Err(MultipleStartGlyphs(2))
  {
    DoubleEverythingStartCount();
  }

  /** The outcome test.js expects for "Double paths, double everything". */
  lemma DoubleEverythingExample()
    ensures FindPathSpec(DoubleEverything) == Err(MultipleStartGlyphs(2))
  {
    DoubleEverythingStartRejected();
  }

  // test.js:225, "Double paths, single start and end glyph"

  const DoublePath: Grid := [
      [" ", "I", "-", "-", "L", "-", "-", "x"],
      [" "],
      ["A", "-", "F", "-", "+"],
      [" ", " ", " ", " ", "|"],
      [" ", " ", " ", " ", "@"]
    ]

  lemma DoublePathStartLocated()
    ensures Locate(DoublePath, START) == Ok(Position(4, 4))
  {
    forall i | 0 <= i < |DoublePath| && i != 4
      ensures START !in DoublePath[i]
    {
      if i == 0 {
      } else if i == 1 {
      } else if i == 2 {
      } else {
      }
    }
    LocateAt(DoublePath, START, Position(4, 4));
  }

  lemma DoublePathEndLocated()
    ensures Locate(DoublePath, END) == Ok(Position(0, 7))
  {
    forall i | 0 <= i < |DoublePath| && i != 0
      ensures END !in DoublePath[i]
    {
      if i == 1 {
      } else if i == 2 {
      } else if i == 3 {
      } else {
      }
    }
    LocateAt(DoublePath, END, Position(0, 7));
  }

  const DoublePathMoves: seq<Direction> :=
    [Up, Up, Left, Left]
    + [Left, Left]

  lemma DoublePathMove0()
    ensures Moves(Resolve, DoublePath, Position(4, 4), None, Up)
  {
    SetsOff(DoublePath, Position(4, 4), Up);
  }

  lemma DoublePathMove1()
    ensures Moves(Resolve, DoublePath, Position(3, 4), Some(Up), Up)
  {
    KeepsHeading(DoublePath, Position(3, 4), Up, "|");
  }

  lemma DoublePathMove2()
    ensures Moves(Resolve, DoublePath, Position(2, 4), Some(Up), Left)
  {
    TurnsTo(DoublePath, Position(2, 4), Up, Left);
  }

  lemma DoublePathMove3()
    ensures Moves(Resolve, DoublePath, Position(2, 3), Some(Left), Left)
  {
    KeepsHeading(DoublePath, Position(2, 3), Left, "-");
  }

  lemma DoublePathMove4()
    ensures Moves(Resolve, DoublePath, Position(2, 2), Some(Left), Left)
  {
    KeepsHeading(DoublePath, Position(2, 2), Left, "F");
  }

  lemma DoublePathMove5()
    ensures Moves(Resolve, DoublePath, Position(2, 1), Some(Left), Left)
  {
    KeepsHeading(DoublePath, Position(2, 1), Left, "-");
  }

  lemma DoublePathLeg0()
    ensures Follows(Resolve, DoublePath, Position(4, 4), None, [Up, Up, Left, Left])
  {
    assert Follows(Resolve, DoublePath, Position(2, 3), Some(Left), [Left]) by {
      DoublePathMove3();
    }
    assert Follows(Resolve, DoublePath, Position(2, 4), Some(Up), [Left, Left]) by {
      DoublePathMove2();
    }
    assert Follows(Resolve, DoublePath, Position(3, 4), Some(Up), [Up, Left, Left]) by {
      DoublePathMove1();
    }
    DoublePathMove0();
  }

  lemma DoublePathLegEnd0()
    ensures End(Position(4, 4), [Up, Up, Left, Left]) == Position(2, 2)
  {
  }

  lemma DoublePathLeg1()
    ensures Follows(Resolve, DoublePath, Position(2, 2), Some(Left), [Left, Left])
  {
    assert Follows(Resolve, DoublePath, Position(2, 1), Some(Left), [Left]) by {
      DoublePathMove5();
    }
    DoublePathMove4();
  }

  lemma DoublePathLegEnd1()
    ensures End(Position(2, 2), [Left, Left]) == Position(2, 0)
  {
  }

  lemma DoublePathArrive1()
    ensures End(Position(4, 4), [Up, Up, Left, Left] + [Left, Left]) == Position(2, 0)
  {
    DoublePathLegEnd0();
    DoublePathLegEnd1();
    StepsJoin(Position(4, 4), [Up, Up, Left, Left], Position(2, 2), [Left, Left]);
  }

  lemma DoublePathWalk1()
    ensures Follows(Resolve, DoublePath, Position(4, 4), None, [Up, Up, Left, Left] + [Left, Left])
  {
    DoublePathLeg0();
    DoublePathLegEnd0();
    DoublePathLeg1();
    FollowsJoin(Resolve, DoublePath, Position(4, 4), None, [Up, Up, Left, Left], Position(2, 2),
        [Left, Left]);
  }

  lemma DoublePathBound()
    ensures |DoublePathMoves| < StepBound(DoublePath)
  {
    FieldCountCoversRow(DoublePath, 0);
  }

  lemma DoublePathStops()
    ensures Resolve(DoublePath, Position(2, 0), Some(Left), "A") == Err(BrokenPath)
  {
    StraightOrBend(DoublePath, Position(2, 0), Left, "A");
  }

  lemma DoublePathHeading()
    ensures HeadingAt(None, DoublePathMoves, |DoublePathMoves|) == Some(Left)
  {
  }

  lemma DoublePathStopsAt()
    ensures End(Position(4, 4), DoublePathMoves) == Position(2, 0) && InBounds(DoublePath,
        Position(2, 0))
    ensures DoublePath[2][0] == "A"
    ensures Resolve(DoublePath, Position(2, 0), HeadingAt(None, DoublePathMoves, |DoublePathMoves|),
        "A") == Err(BrokenPath)
  {
    DoublePathArrive1();
    DoublePathHeading();
    DoublePathStops();
  }

  /** The outcome test.js expects for "Double paths, single start and end glyph". */
  lemma DoublePathExample()
    ensures FindPathSpec(DoublePath) == Err(BrokenPath)
  {
    DoublePathStartLocated();
    DoublePathEndLocated();
    DoublePathWalk1();
    DoublePathBound();
    DoublePathStopsAt();
    FindPathStopsFollowing(Resolve, DoublePath, Position(4, 4), DoublePathMoves, BrokenPath);
  }

  // test.js:240, "Fork and two end glyphs"

  const ForkTwoEnds: Grid := [
      [" ", " ", " ", " ", " ", "x", "-", "B"],
      [" ", " ", " ", " ", " ", " ", " ", "|"],
      ["@", "-", "-", "A", "-", "-", "-", "+"],
      [" ", " ", " ", " ", " ", " ", " ", "|"],
      [" ", " ", "x", "+", " ", " ", " ", "C"],
      [" ", " ", " ", "|", " ", " ", " ", "|"],
      [" ", " ", " ", "+", "-", "-", "-", "+"]
    ]

  lemma ForkTwoEndsStartLocated()
    ensures Locate(ForkTwoEnds, START) == Ok(Position(2, 0))
  {
    forall i | 0 <= i < |ForkTwoEnds| && i != 2
      ensures START !in ForkTwoEnds[i]
    {
      if i == 0 {
      } else if i == 1 {
      } else if i == 3 {
      } else if i == 4 {
      } else if i == 5 {
      } else {
      }
    }
    LocateAt(ForkTwoEnds, START, Position(2, 0));
  }

  lemma ForkTwoEndsEndRow0()
    ensures Occurrences(ForkTwoEnds[0], END) == 1
  {
  }

  lemma ForkTwoEndsEndRow1()
    ensures Occurrences(ForkTwoEnds[1], END) == 0
  {
  }

  lemma ForkTwoEndsEndRow2()
    ensures Occurrences(ForkTwoEnds[2], END) == 0
  {
  }

  lemma ForkTwoEndsEndRow3()
    ensures Occurrences(ForkTwoEnds[3], END) == 0
  {
  }

  lemma ForkTwoEndsEndRow4()
    ensures Occurrences(ForkTwoEnds[4], END) == 1
  {
  }

  lemma ForkTwoEndsEndRow5()
    ensures Occurrences(ForkTwoEnds[5], END) == 0
  {
  }

  lemma ForkTwoEndsEndRow6()
    ensures Occurrences(ForkTwoEnds[6], END) == 0
  {
  }

  lemma ForkTwoEndsEndCount()
    ensures Total(ForkTwoEnds, END) == 2
  {
    forall k | 0 <= k < |ForkTwoEnds|
      ensures Occurrences(ForkTwoEnds[k], END) == if k == 0 then 1 else if k == 4 then 1 else 0
    {
      if k == 0 {
        ForkTwoEndsEndRow0();
      } else if k == 1 {
        ForkTwoEndsEndRow1();
      } else if k == 2 {
        ForkTwoEndsEndRow2();
      } else if k == 3 {
        ForkTwoEndsEndRow3();
      } else if k == 4 {
        ForkTwoEndsEndRow4();
      } else if k == 5 {
        ForkTwoEndsEndRow5();
      } else {
        ForkTwoEndsEndRow6();
      }
    }
    TotalOfCounts(ForkTwoEnds, END, [1, 0, 0, 0, 1, 0, 0]);
  }

  lemma ForkTwoEndsEndRejected()
    ensures Locate(ForkTwoEnds, END) == Err(MultipleEndGlyphs(2))
  {
    ForkTwoEndsEndCount();
  }

  /** The outcome test.js expects for "Fork and two end glyphs". */
  lemma ForkTwoEndsExample()
    ensures FindPathSpec(ForkTwoEnds) == Err(MultipleEndGlyphs(2))
  {
    ForkTwoEndsStartLocated();
    ForkTwoEndsEndRejected();
  }

  // test.js:257, "Fork and open ended second path"

  const OpenFork: Grid := [
      [" ", " ", " ", " ", " ", " ", "-", "B"],
      [" ", " ", " ", " ", " ", " ", " ", "|"],
      ["@", "-", "-", "A", "-", "-", "-", "+"],
      [" ", " ", " ", " ", " ", " ", " ", "|"],
      [" ", " ", "x", "+", " ", " ", " ", "C"],
      [" ", " ", " ", "|", " ", " ", " ", "|"],
      [" ", " ", " ", "+", "-", "-", "-", "+"]
    ]

  lemma OpenForkStartLocated()
    ensures Locate(OpenFork, START) == Ok(Position(2, 0))
  {
    forall i | 0 <= i < |OpenFork| && i != 2
      ensures START !in OpenFork[i]
    {
      if i == 0 {
      } else if i == 1 {
      } else if i == 3 {
      } else if i == 4 {
      } else if i == 5 {
      } else {
      }
    }
    LocateAt(OpenFork, START, Position(2, 0));
  }

  lemma OpenForkEndLocated()
    ensures Locate(OpenFork, END) == Ok(Position(4, 2))
  {
    forall i | 0 <= i < |OpenFork| && i != 4
      ensures END !in OpenFork[i]
    {
      if i == 0 {
      } else if i == 1 {
      } else if i == 2 {
      } else if i == 3 {
      } else if i == 5 {
      } else {
      }
    }
    LocateAt(OpenFork, END, Position(4, 2));
  }

  const OpenForkMoves: seq<Direction> :=
    [Right, Right, Right, Right]
    + [Right, Right, Right]

  lemma OpenForkMove0()
    ensures Moves(Resolve, OpenFork, Position(2, 0), None, Right)
  {
    SetsOff(OpenFork, Position(2, 0), Right);
  }

  lemma OpenForkMove1()
    ensures Moves(Resolve, OpenFork, Position(2, 1), Some(Right), Right)
  {
    KeepsHeading(OpenFork, Position(2, 1), Right, "-");
  }

  lemma OpenForkMove2()
    ensures Moves(Resolve, OpenFork, Position(2, 2), Some(Right), Right)
  {
    KeepsHeading(OpenFork, Position(2, 2), Right, "-");
  }

  lemma OpenForkMove3()
    ensures Moves(Resolve, OpenFork, Position(2, 3), Some(Right), Right)
  {
    KeepsHeading(OpenFork, Position(2, 3), Right, "A");
  }

  lemma OpenForkMove4()
    ensures Moves(Resolve, OpenFork, Position(2, 4), Some(Right), Right)
  {
    KeepsHeading(OpenFork, Position(2, 4), Right, "-");
  }

  lemma OpenForkMove5()
    ensures Moves(Resolve, OpenFork, Position(2, 5), Some(Right), Right)
  {
    KeepsHeading(OpenFork, Position(2, 5), Right, "-");
  }

  lemma OpenForkMove6()
    ensures Moves(Resolve, OpenFork, Position(2, 6), Some(Right), Right)
  {
    KeepsHeading(OpenFork, Position(2, 6), Right, "-");
  }

  lemma OpenForkLeg0()
    ensures Follows(Resolve, OpenFork, Position(2, 0), None, [Right, Right, Right, Right])
  {
    assert Follows(Resolve, OpenFork, Position(2, 3), Some(Right), [Right]) by {
      OpenForkMove3();
    }
    assert Follows(Resolve, OpenFork, Position(2, 2), Some(Right), [Right, Right]) by {
      OpenForkMove2();
    }
    assert Follows(Resolve, OpenFork, Position(2, 1), Some(Right), [Right, Right, Right]) by {
      OpenForkMove1();
    }
    OpenForkMove0();
  }

  lemma OpenForkLegEnd0()
    ensures End(Position(2, 0), [Right, Right, Right, Right]) == Position(2, 4)
  {
  }

  lemma OpenForkLeg1()
    ensures Follows(Resolve, OpenFork, Position(2, 4), Some(Right), [Right, Right, Right])
  {
    assert Follows(Resolve, OpenFork, Position(2, 6), Some(Right), [Right]) by {
      OpenForkMove6();
    }
    assert Follows(Resolve, OpenFork, Position(2, 5), Some(Right), [Right, Right]) by {
      OpenForkMove5();
    }
    OpenForkMove4();
  }

  lemma OpenForkLegEnd1()
    ensures End(Position(2, 4), [Right, Right, Right]) == Position(2, 7)
  {
  }

  lemma OpenForkArrive1()
    ensures End(Position(2, 0), [Right, Right, Right, Right] + [Right, Right, Right])
        == Position(2, 7)
  {
    OpenForkLegEnd0();
    OpenForkLegEnd1();
    StepsJoin(Position(2, 0), [Right, Right, Right, Right], Position(2, 4), [Right, Right, Right]);
  }

  lemma OpenForkWalk1()
    ensures Follows(Resolve, OpenFork, Position(2, 0), None, [Right, Right, Right, Right] + [Right,
        Right, Right])
  {
    OpenForkLeg0();
    OpenForkLegEnd0();
    OpenForkLeg1();
    FollowsJoin(Resolve, OpenFork, Position(2, 0), None, [Right, Right, Right, Right], Position(2, 4),
        [Right, Right, Right]);
  }

  lemma OpenForkBound()
    ensures |OpenForkMoves| < StepBound(OpenFork)
  {
    FieldCountCoversRow(OpenFork, 0);
  }

  lemma OpenForkStops()
    ensures Resolve(OpenFork, Position(2, 7), Some(Right), "+") == Err(Fork)
  {
    TurnVerdicts(OpenFork, Position(2, 7), Right);
  }

  lemma OpenForkHeading()
    ensures HeadingAt(None, OpenForkMoves, |OpenForkMoves|) == Some(Right)
  {
  }

  lemma OpenForkStopsAt()
    ensures End(Position(2, 0), OpenForkMoves) == Position(2, 7) && InBounds(OpenFork, Position(2, 7))
    ensures OpenFork[2][7] == "+"
    ensures Resolve(OpenFork, Position(2, 7), HeadingAt(None, OpenForkMoves, |OpenForkMoves|), "+")
        == Err(Fork)
  {
    OpenForkArrive1();
    OpenForkHeading();
    OpenForkStops();
  }

  /** The outcome test.js expects for "Fork and open ended second path". */
  lemma OpenForkExample()
    ensures FindPathSpec(OpenFork) == Err(Fork)
  {
    OpenForkStartLocated();
    OpenForkEndLocated();
    OpenForkWalk1();
    OpenForkBound();
    OpenForkStopsAt();
    FindPathStopsFollowing(Resolve, OpenFork, Position(2, 0), OpenForkMoves, Fork);
  }

  // test.js:274, "Broken path"

  const BrokenGap: Grid := [
      ["@", "-", "-", "A", "-", "+"],
      [" ", " ", " ", " ", " ", "|"],
      [" "],
      [" ", " ", " ", " ", " ", "B", "-", "x"]
    ]

  lemma BrokenGapStartLocated()
    ensures Locate(BrokenGap, START) == Ok(Position(0, 0))
  {
    forall i | 0 <= i < |BrokenGap| && i != 0
      ensures START !in BrokenGap[i]
    {
      if i == 1 {
      } else if i == 2 {
      } else {
      }
    }
    LocateAt(BrokenGap, START, Position(0, 0));
  }

  lemma BrokenGapEndLocated()
    ensures Locate(BrokenGap, END) == Ok(Position(3, 7))
  {
    forall i | 0 <= i < |BrokenGap| && i != 3
      ensures END !in BrokenGap[i]
    {
      if i == 0 {
      } else if i == 1 {
      } else {
      }
    }
    LocateAt(BrokenGap, END, Position(3, 7));
  }

  const BrokenGapMoves: seq<Direction> :=
    [Right, Right, Right, Right]
    + [Right, Down]

  lemma BrokenGapMove0()
    ensures Moves(Resolve, BrokenGap, Position(0, 0), None, Right)
  {
    SetsOff(BrokenGap, Position(0, 0), Right);
  }

  lemma BrokenGapMove1()
    ensures Moves(Resolve, BrokenGap, Position(0, 1), Some(Right), Right)
  {
    KeepsHeading(BrokenGap, Position(0, 1), Right, "-");
  }

  lemma BrokenGapMove2()
    ensures Moves(Resolve, BrokenGap, Position(0, 2), Some(Right), Right)
  {
    KeepsHeading(BrokenGap, Position(0, 2), Right, "-");
  }

  lemma BrokenGapMove3()
    ensures Moves(Resolve, BrokenGap, Position(0, 3), Some(Right), Right)
  {
    KeepsHeading(BrokenGap, Position(0, 3), Right, "A");
  }

  lemma BrokenGapMove4()
    ensures Moves(Resolve, BrokenGap, Position(0, 4), Some(Right), Right)
  {
    KeepsHeading(BrokenGap, Position(0, 4), Right, "-");
  }

  lemma BrokenGapMove5()
    ensures Moves(Resolve, BrokenGap, Position(0, 5), Some(Right), Down)
  {
    TurnsTo(BrokenGap, Position(0, 5), Right, Down);
  }

  lemma BrokenGapLeg0()
    ensures Follows(Resolve, BrokenGap, Position(0, 0), None, [Right, Right, Right, Right])
  {
    assert Follows(Resolve, BrokenGap, Position(0, 3), Some(Right), [Right]) by {
      BrokenGapMove3();
    }
    assert Follows(Resolve, BrokenGap, Position(0, 2), Some(Right), [Right, Right]) by {
      BrokenGapMove2();
    }
    assert Follows(Resolve, BrokenGap, Position(0, 1), Some(Right), [Right, Right, Right]) by {
      BrokenGapMove1();
    }
    BrokenGapMove0();
  }

  lemma BrokenGapLegEnd0()
    ensures End(Position(0, 0), [Right, Right, Right, Right]) == Position(0, 4)
  {
  }

  lemma BrokenGapLeg1()
    ensures Follows(Resolve, BrokenGap, Position(0, 4), Some(Right), [Right, Down])
  {
    assert Follows(Resolve, BrokenGap, Position(0, 5), Some(Right), [Down]) by {
      BrokenGapMove5();
    }
    BrokenGapMove4();
  }

  lemma BrokenGapLegEnd1()
    ensures End(Position(0, 4), [Right, Down]) == Position(1, 5)
  {
  }

  lemma BrokenGapArrive1()
    ensures End(Position(0, 0), [Right, Right, Right, Right] + [Right, Down]) == Position(1, 5)
  {
    BrokenGapLegEnd0();
    BrokenGapLegEnd1();
    StepsJoin(Position(0, 0), [Right, Right, Right, Right], Position(0, 4), [Right, Down]);
  }

  lemma BrokenGapWalk1()
    ensures Follows(Resolve, BrokenGap, Position(0, 0), None, [Right, Right, Right, Right] + [Right,
        Down])
  {
    BrokenGapLeg0();
    BrokenGapLegEnd0();
    BrokenGapLeg1();
    FollowsJoin(Resolve, BrokenGap, Position(0, 0), None, [Right, Right, Right, Right],
        Position(0, 4), [Right, Down]);
  }

  lemma BrokenGapBound()
    ensures |BrokenGapMoves| < StepBound(BrokenGap)
  {
    FieldCountCoversRow(BrokenGap, 3);
  }

  lemma BrokenGapStops()
    ensures Resolve(BrokenGap, Position(1, 5), Some(Down), "|") == Err(BrokenPath)
  {
    StraightOrBend(BrokenGap, Position(1, 5), Down, "|");
  }

  lemma BrokenGapHeading()
    ensures HeadingAt(None, BrokenGapMoves, |BrokenGapMoves|) == Some(Down)
  {
  }

  lemma BrokenGapStopsAt()
    ensures End(Position(0, 0), BrokenGapMoves) == Position(1, 5) && InBounds(BrokenGap,
        Position(1, 5))
    ensures BrokenGap[1][5] == "|"
    ensures Resolve(BrokenGap, Position(1, 5), HeadingAt(None, BrokenGapMoves, |BrokenGapMoves|),
        "|") == Err(BrokenPath)
  {
    BrokenGapArrive1();
    BrokenGapHeading();
    BrokenGapStops();
  }

  /** The outcome test.js expects for "Broken path". */
  lemma BrokenGapExample()
    ensures FindPathSpec(BrokenGap) == Err(BrokenPath)
  {
    BrokenGapStartLocated();
    BrokenGapEndLocated();
    BrokenGapWalk1();
    BrokenGapBound();
    BrokenGapStopsAt();
    FindPathStopsFollowing(Resolve, BrokenGap, Position(0, 0), BrokenGapMoves, BrokenPath);
  }

  // test.js:288, "Start glyph in the middle and two end glyphs"

  const MiddleStartTwoEnds: Grid := [
      ["x", "-", "B", "-", "@", "-", "A", "-", "x"]
    ]

  lemma MiddleStartTwoEndsStartLocated()
    ensures Locate(MiddleStartTwoEnds, START) == Ok(Position(0, 4))
  {
    LocateAt(MiddleStartTwoEnds, START, Position(0, 4));
  }

  lemma MiddleStartTwoEndsEndRow0()
    ensures Occurrences(MiddleStartTwoEnds[0], END) == 2
  {
  }

  lemma MiddleStartTwoEndsEndCount()
    ensures Total(MiddleStartTwoEnds, END) == 2
  {
    forall k | 0 <= k < |MiddleStartTwoEnds|
      ensures Occurrences(MiddleStartTwoEnds[k], END) == if k == 0 then 2 else 0
    {
      if k == 0 {
        MiddleStartTwoEndsEndRow0();
      }
    }
    TotalOfCounts(MiddleStartTwoEnds, END, [2]);
  }

  lemma MiddleStartTwoEndsEndRejected()
    ensures Locate(MiddleStartTwoEnds, END) == Err(MultipleEndGlyphs(2))
  {
    MiddleStartTwoEndsEndCount();
  }

  /** The outcome test.js expects for "Start glyph in the middle and two end glyphs". */
  lemma MiddleStartTwoEndsExample()
    ensures FindPathSpec(MiddleStartTwoEnds) == Err(MultipleEndGlyphs(2))
  {
    MiddleStartTwoEndsStartLocated();
    MiddleStartTwoEndsEndRejected();
  }

  // test.js:300, "Start glyph in the middle"

  const MiddleStart: Grid := [
      ["x", "-", "B", "-", "@", "-", "A", "-", "H"]
    ]

  lemma MiddleStartStartLocated()
    ensures Locate(MiddleStart, START) == Ok(Position(0, 4))
  {
    LocateAt(MiddleStart, START, Position(0, 4));
  }

  lemma MiddleStartEndLocated()
    ensures Locate(MiddleStart, END) == Ok(Position(0, 0))
  {
    LocateAt(MiddleStart, END, Position(0, 0));
  }

  const MiddleStartMoves: seq<Direction> := []

  lemma MiddleStartBound()
    ensures |MiddleStartMoves| < StepBound(MiddleStart)
  {
    FieldCountCoversRow(MiddleStart, 0);
  }

  lemma MiddleStartStops()
    ensures Resolve(MiddleStart, Position(0, 4), None, "@") == Err(MisplacedStartGlyph)
  {
    assert IsExit(MiddleStart, Position(0, 4), Right) && IsExit(MiddleStart, Position(0, 4), Left);
    StartVerdicts(MiddleStart, Position(0, 4), Right);
  }

  lemma MiddleStartHeading()
    ensures HeadingAt(None, MiddleStartMoves, |MiddleStartMoves|) == None
  {
  }

  lemma MiddleStartStopsAt()
    ensures End(Position(0, 4), MiddleStartMoves) == Position(0, 4) && InBounds(MiddleStart,
        Position(0, 4))
    ensures MiddleStart[0][4] == "@"
    ensures Resolve(MiddleStart, Position(0, 4), HeadingAt(None, MiddleStartMoves,
        |MiddleStartMoves|), "@") == Err(MisplacedStartGlyph)
  {
    MiddleStartHeading();
    MiddleStartStops();
  }

  /** The outcome test.js expects for "Start glyph in the middle". */
  lemma MiddleStartExample()
    ensures FindPathSpec(MiddleStart) == Err(MisplacedStartGlyph)
  {
    MiddleStartStartLocated();
    MiddleStartEndLocated();
    MiddleStartBound();
    MiddleStartStopsAt();
    FindPathStopsFollowing(Resolve, MiddleStart, Position(0, 4), MiddleStartMoves, MisplacedStartGlyph);
  }

  // test.js:311, "Fake turn"

  const StraightTurn: Grid := [
      ["@", "-", "A", "-", "+", "-", "B", "-", "x"]
    ]

  lemma StraightTurnStartLocated()
    ensures Locate(StraightTurn, START) == Ok(Position(0, 0))
  {
    LocateAt(StraightTurn, START, Position(0, 0));
  }

  lemma StraightTurnEndLocated()
    ensures Locate(StraightTurn, END) == Ok(Position(0, 8))
  {
    LocateAt(StraightTurn, END, Position(0, 8));
  }

  const StraightTurnMoves: seq<Direction> :=
    [Right, Right, Right, Right]

  lemma StraightTurnMove0()
    ensures Moves(Resolve, StraightTurn, Position(0, 0), None, Right)
  {
    SetsOff(StraightTurn, Position(0, 0), Right);
  }

  lemma StraightTurnMove1()
    ensures Moves(Resolve, StraightTurn, Position(0, 1), Some(Right), Right)
  {
    KeepsHeading(StraightTurn, Position(0, 1), Right, "-");
  }

  lemma StraightTurnMove2()
    ensures Moves(Resolve, StraightTurn, Position(0, 2), Some(Right), Right)
  {
    KeepsHeading(StraightTurn, Position(0, 2), Right, "A");
  }

  lemma StraightTurnMove3()
    ensures Moves(Resolve, StraightTurn, Position(0, 3), Some(Right), Right)
  {
    KeepsHeading(StraightTurn, Position(0, 3), Right, "-");
  }

  lemma StraightTurnLeg0()
    ensures Follows(Resolve, StraightTurn, Position(0, 0), None, [Right, Right, Right, Right])
  {
    assert Follows(Resolve, StraightTurn, Position(0, 3), Some(Right), [Right]) by {
      StraightTurnMove3();
    }
    assert Follows(Resolve, StraightTurn, Position(0, 2), Some(Right), [Right, Right]) by {
      StraightTurnMove2();
    }
    assert Follows(Resolve, StraightTurn, Position(0, 1), Some(Right), [Right, Right, Right]) by {
      StraightTurnMove1();
    }
    StraightTurnMove0();
  }

  lemma StraightTurnLegEnd0()
    ensures End(Position(0, 0), [Right, Right, Right, Right]) == Position(0, 4)
  {
  }

  lemma StraightTurnBound()
    ensures |StraightTurnMoves| < StepBound(StraightTurn)
  {
    FieldCountCoversRow(StraightTurn, 0);
  }

  lemma StraightTurnStops()
    ensures Resolve(StraightTurn, Position(0, 4), Some(Right), "+") == Err(FakeTurn)
  {
    TurnVerdicts(StraightTurn, Position(0, 4), Right);
  }

  lemma StraightTurnHeading()
    ensures HeadingAt(None, StraightTurnMoves, |StraightTurnMoves|) == Some(Right)
  {
  }

  lemma StraightTurnStopsAt()
    ensures End(Position(0, 0), StraightTurnMoves) == Position(0, 4) && InBounds(StraightTurn,
        Position(0, 4))
    ensures StraightTurn[0][4] == "+"
    ensures Resolve(StraightTurn, Position(0, 4), HeadingAt(None, StraightTurnMoves,
        |StraightTurnMoves|), "+") == Err(FakeTurn)
  {
    StraightTurnLegEnd0();
    StraightTurnHeading();
    StraightTurnStops();
  }

  /** The outcome test.js expects for "Fake turn". */
  lemma StraightTurnExample()
    ensures FindPathSpec(StraightTurn) == Err(FakeTurn)
  {
    StraightTurnStartLocated();
    StraightTurnEndLocated();
    StraightTurnLeg0();
    StraightTurnBound();
    StraightTurnStopsAt();
    FindPathStopsFollowing(Resolve, StraightTurn, Position(0, 0), StraightTurnMoves, FakeTurn);
  }
}
