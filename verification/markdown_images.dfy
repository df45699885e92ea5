/** Exactly which lines are cleaned once and for all. */
module MarkdownImages {
  import opened MarkdownNormalize

  // ----- images, without lengths -----

  /** The rest of an image after its "![": a first ']', directly followed by '(', and a ')' later. */
  predicate Label(s: string) {
    s != "" && (if s[0] == ']' then |s| > 1 && s[1] == '(' && ')' in s[2..] else Label(s[1..]))
  }

  predicate StartsImage(s: string) {
    |s| >= 2 && s[0] == '!' && s[1] == '[' && Label(s[2..])
  }

  predicate HasImage(s: string) {
    s != "" && (StartsImage(s) || HasImage(s[1..]))
  }

  lemma {:induction false} IndexIsEndIff(s: string, c: char)
    ensures IndexOf(s, c) < |s| <==> c in s
  {
    if s != "" && s[0] != c {
      IndexIsEndIff(s[1..], c);
      assert s == [s[0]] + s[1..];
    }
  }

  lemma {:induction false} LabelIff(s: string)
    ensures Label(s) <==>
              var p := IndexOf(s, ']'); p + 1 < |s| && s[p + 1] == '(' && ')' in s[p + 2..]
  {
    if s != "" && s[0] != ']' {
      LabelIff(s[1..]);
      var q := IndexOf(s[1..], ']');
      if q + 2 < |s| {
        assert s[1..][q + 1] == s[q + 2] && s[1..][q + 2..] == s[q + 3..];
      }
    }
  }

  lemma StartsImageIff(s: string)
    ensures StartsImage(s) <==> ImageLength(s).Some?
  {
    if |s| >= 2 && s[0] == '!' && s[1] == '[' {
      var t := s[2..];
      assert s[..2] == "![";
      LabelIff(t);
      var p := IndexOf(t, ']');
      if p + 1 < |t| {
        assert s[2 + p + 1] == t[p + 1] && s[2 + p + 2..] == t[p + 2..];
        IndexIsEndIff(t[p + 2..], ')');
      }
    } else if |s| >= 2 {
      assert s[..2][0] == s[0] && s[..2][1] == s[1];
    }
  }

  lemma {:induction false} RemovalShrinks(s: string)
    ensures |RemoveImages(s)| <= |s|
    ensures |RemoveImages(s)| == |s| <==> !HasImage(s)
    ensures RemoveImages(s) == s <==> !HasImage(s)
    decreases |s|
  {
    if s != "" {
      StartsImageIff(s);
      if ImageLength(s).Some? {
        RemovalShrinks(s[ImageLength(s).value..]);
      } else {
        RemovalShrinks(s[1..]);
        assert s == [s[0]] + s[1..];
      }
    }
  }

  // ----- squeezing neither makes nor breaks an image -----

  lemma {:induction false} SqueezeHas(s: string, inGap: bool, c: char)
    requires !IsGap(c)
    ensures c in Squeeze(s, inGap) <==> c in s
  {
    if s != "" {
      SqueezeHas(s[1..], IsGap(s[0]), c);
      assert s == [s[0]] + s[1..];
    }
  }

  lemma LabelOfCons(c: char, s: string)
    requires c != ']'
    ensures Label([c] + s) <==> Label(s)
  {
    assert ([c] + s)[1..] == s;
  }

  lemma LabelOfBracket(s: string)
    ensures Label("]" + s) <==> s != "" && s[0] == '(' && ')' in s[1..]
  {
    if s != "" {
      assert ("]" + s)[1] == s[0] && ("]" + s)[2..] == s[1..];
    }
  }

  lemma {:induction false} SqueezeKeepsLabel(s: string, inGap: bool)
    ensures Label(Squeeze(s, inGap)) <==> Label(s)
  {
    if s != "" {
      var rest := Squeeze(s[1..], IsGap(s[0]));
      assert s == [s[0]] + s[1..] && "" + rest == rest;
      SqueezeKeepsLabel(s[1..], IsGap(s[0]));
      if s[0] == ']' {
        LabelOfBracket(rest);
        LabelOfBracket(s[1..]);
        if |s| > 1 && s[1] == '(' {
          SqueezeHas(s[2..], false, ')');
          assert rest == "(" + Squeeze(s[2..], false);
          assert rest[1..] == Squeeze(s[2..], false) && s[1..][1..] == s[2..];
        }
      } else {
        LabelOfCons(s[0], s[1..]);
        LabelOfCons(' ', rest);
        LabelOfCons(s[0], rest);
      }
    }
  }

  lemma StartOfCons(c: char, s: string)
    ensures StartsImage([c] + s) <==> c == '!' && s != "" && s[0] == '[' && Label(s[1..])
  {
    if s != "" {
      assert ([c] + s)[2..] == s[1..];
    }
  }

  lemma {:induction false} SqueezeKeepsImages(s: string, inGap: bool)
    ensures HasImage(Squeeze(s, inGap)) <==> HasImage(s)
  {
    if s != "" {
      var rest := Squeeze(s[1..], IsGap(s[0]));
      assert s == [s[0]] + s[1..] && "" + rest == rest;
      SqueezeKeepsImages(s[1..], IsGap(s[0]));
      StartOfCons(s[0], s[1..]);
      if IsGap(s[0]) {
        StartOfCons(' ', rest);
      } else {
        StartOfCons(s[0], rest);
        if |s| > 1 && s[1] == '[' {
          SqueezeKeepsLabel(s[2..], false);
          assert rest == "[" + Squeeze(s[2..], false) && rest[1..] == Squeeze(s[2..], false);
          assert s[1..][1..] == s[2..];
        }
      }
    }
  }

  // ----- nor does trimming on the right -----

  lemma {:induction false} LabelBeforeSpace(s: string)
    ensures Label(s + " ") <==> Label(s)
  {
    if s == "" {
      assert "" + " " == " " && " "[1..] == "";
    } else {
      LabelBeforeSpace(s[1..]);
      assert s + " " == [s[0]] + (s[1..] + " ") && s == [s[0]] + s[1..];
      if s[0] == ']' {
        LabelOfBracket(s[1..] + " ");
        LabelOfBracket(s[1..]);
        if |s| > 1 {
          assert (s[1..] + " ")[1..] == s[1..][1..] + " ";
        }
      } else {
        LabelOfCons(s[0], s[1..] + " ");
        LabelOfCons(s[0], s[1..]);
      }
    }
  }

  lemma {:induction false} ImagesBeforeSpace(s: string)
    ensures HasImage(s + " ") <==> HasImage(s)
  {
    if s == "" {
      assert "" + " " == " " && " "[1..] == "";
    } else {
      ImagesBeforeSpace(s[1..]);
      assert s + " " == [s[0]] + (s[1..] + " ") && s == [s[0]] + s[1..];
      StartOfCons(s[0], s[1..] + " ");
      StartOfCons(s[0], s[1..]);
      if |s| > 1 {
        LabelBeforeSpace(s[2..]);
        assert (s[1..] + " ")[1..] == s[2..] + " " && s[1..][1..] == s[2..];
      }
    }
  }

  lemma {:induction false} TrimKeepsImages(s: string)
    ensures HasImage(TrimRight(s)) <==> HasImage(s)
  {
    if s != "" && s[|s| - 1] == ' ' {
      TrimKeepsImages(s[..|s| - 1]);
      ImagesBeforeSpace(s[..|s| - 1]);
      assert s == s[..|s| - 1] + " ";
    }
  }

  // ----- the condition -----

  lemma {:induction false} SqueezeShrinks(s: string, inGap: bool)
    ensures |Squeeze(s, inGap)| <= |s|
  {
    if s != "" {
      SqueezeShrinks(s[1..], IsGap(s[0]));
    }
  }

  lemma CleanAgainIff(line: string)
    requires Tidy(line)
    ensures Clean(line) == line <==> !HasImage(line)
  {
    RemovalShrinks(line);
    CleanIsTidy(line);
    SqueezeShrinks(RemoveImages(line), false);
  }

  /** Cleaning a line twice is cleaning it once exactly when removing its images leaves no image behind. */
  lemma CleanIdempotentIff(line: string)
    ensures Clean(Clean(line)) == Clean(line) <==> RemoveImages(RemoveImages(line)) == RemoveImages(line)
  {
    var bare := RemoveImages(line);
    CleanIsTidy(line);
    CleanAgainIff(Clean(line));
    TrimKeepsImages(Squeeze(bare, false));
    SqueezeKeepsImages(bare, false);
    RemovalShrinks(bare);
  }
}
