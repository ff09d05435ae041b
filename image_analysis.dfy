/** The chart-image analysis screen (components/ImageAnalysis.tsx): the
    free-plan quota of two analyses, the guards of the "analyse" handler and
    the file select, drop and remove handlers.

    The analysis call itself (a generative-AI request) is not modelled: its
    outcome is an input, a result or the thrown error's message. The
    signed-in user is a prop and may change between renders, so each
    handler takes the user it was rendered with. */
module ImageAnalysis {
  import opened Types

  const SelectImageError: string := "Por favor, selecione uma imagem para analisar."
  const LimitError: string := "Você atingiu o limite de 2 análises diárias para o plano gratuito."
  const UnknownError: string := "Ocorreu um erro desconhecido."

  /** Analyses a free account may run. */
  const FreeQuota: int := 2

  /** A file the browser handed over; only its identity matters here. */
  datatype ImageFile = ImageFile(name: string)

  /** The outcome of the analysis call: a result, or the thrown error's
      `message` ("" when it has none). */
  datatype AnalysisOutcome = Analysed(result: AnalysisResult) | Failed(message: string)

  /** `user?.role === UserRole.FREE`: no user counts as not free. */
  predicate IsFreeUser(user: Option<User>)
  {
    user.Some? && user.value.role == Free
  }

  /** The credits line: a number for free users, Infinity otherwise. */
  datatype Credits = Limited(count: int) | Unlimited

  function AnalysesRemaining(user: Option<User>, analysisCount: int): (c: Credits)
    ensures IsFreeUser(user) <==> c.Limited?
    ensures c.Limited? ==> c.count == FreeQuota - analysisCount
  {
    if IsFreeUser(user) then Limited(FreeQuota - analysisCount) else Unlimited
  }

  /** The message a failed analysis shows. */
  function FailureMessage(message: string): (shown: string)
    ensures shown != ""
    ensures message != "" ==> shown == message
  {
    if message != "" then message else UnknownError
  }

  class ImageAnalysisState {
    var imageFile: Option<ImageFile>
    var previewUrl: Option<string>
    var result: Option<AnalysisResult>
    var error: Option<string>
    var isLoading: bool
    var analysisCount: int

    /** The initial state of `useState`. */
    constructor ()
      ensures imageFile == None && previewUrl == None && result == None && error == None
      ensures !isLoading && analysisCount == 0
    {
      imageFile := None;
      previewUrl := None;
      result := None;
      error := None;
      isLoading := false;
      analysisCount := 0;
    }

    /** The analyse button's `disabled` rule. */
    predicate AnalyzeDisabled(user: Option<User>)
      reads this
    {
      imageFile.None? || isLoading
      || (IsFreeUser(user) && AnalysesRemaining(user, analysisCount).count <= 0)
    }

    /** The handler's two guards: no file, or a free account out of
        analyses. */
    predicate AnalyzeRefused(user: Option<User>)
      reads this
    {
      imageFile.None? || (IsFreeUser(user) && analysisCount >= FreeQuota)
    }

    /** When nothing is loading, the button is disabled exactly when the
        handler would refuse: a click the button lets through always passes
        both guards. */
    lemma ButtonMatchesGuards(user: Option<User>)
      requires !isLoading
      ensures AnalyzeDisabled(user) <==> AnalyzeRefused(user)
    {
    }

    /** `handleFileChange` and `handleDrop`: a chosen file replaces the
        current one with a fresh preview and clears the result and the
        error; no file leaves everything as it was. */
    method ChooseFile(file: Option<ImageFile>, objectUrl: string)
      modifies this
      ensures file.Some? ==>
        imageFile == file && previewUrl == Some(objectUrl) && result == None && error == None
      ensures file.None? ==>
        imageFile == old(imageFile) && previewUrl == old(previewUrl) && result == old(result) && error == old(error)
      ensures isLoading == old(isLoading) && analysisCount == old(analysisCount)
    {
      if file.Some? {
        imageFile := file;
        previewUrl := Some(objectUrl);
        result := None;
        error := None;
      }
    }

    /** `handleRemoveImage`: file, preview and result are cleared (the error
        stays); the old preview URL, if any, is the one revoked. */
    method RemoveImage() returns (revoked: Option<string>)
      modifies this
      ensures revoked == old(previewUrl)
      ensures imageFile == None && previewUrl == None && result == None
      ensures error == old(error) && isLoading == old(isLoading) && analysisCount == old(analysisCount)
    {
      revoked := previewUrl;
      imageFile := None;
      previewUrl := None;
      result := None;
    }

    /** `handleAnalyze` up to its `await`. Without a file it sets the
        select-image error; a free account with two analyses used gets the
        limit error; in both cases no call is made. Otherwise loading starts
        with error and result cleared. */
    method BeginAnalyze(user: Option<User>) returns (called: bool)
      modifies this
      ensures called <==> !old(AnalyzeRefused(user))
      ensures old(imageFile).None? ==> error == Some(SelectImageError)
      ensures old(imageFile).Some? && !called ==> error == Some(LimitError)
      ensures !called ==> result == old(result) && isLoading == old(isLoading)
      ensures called ==> isLoading && error == None && result == None
      ensures imageFile == old(imageFile) && previewUrl == old(previewUrl)
      ensures analysisCount == old(analysisCount)
    {
      if imageFile.None? {
        error := Some(SelectImageError);
        return false;
      }
      if IsFreeUser(user) && analysisCount >= FreeQuota {
        error := Some(LimitError);
        return false;
      }
      isLoading := true;
      error := None;
      result := None;
      called := true;
    }

    /** `handleAnalyze` after the call settled: a result is stored and, for
        a free account only, counted; a failure shows its message (or the
        generic text) and counts nothing; loading ends either way. */
    method EndAnalyze(user: Option<User>, outcome: AnalysisOutcome)
      modifies this
      ensures outcome.Analysed? ==>
        && result == Some(outcome.result) && error == old(error)
        && analysisCount == old(analysisCount) + (if IsFreeUser(user) then 1 else 0)
      ensures outcome.Failed? ==>
        && error == Some(FailureMessage(outcome.message)) && result == old(result)
        && analysisCount == old(analysisCount)
      ensures !isLoading
      ensures imageFile == old(imageFile) && previewUrl == old(previewUrl)
    {
      match outcome {
        case Analysed(r) =>
          result := Some(r);
          if IsFreeUser(user) {
            analysisCount := analysisCount + 1;
          }
        case Failed(message) =>
          error := Some(if message != "" then message else UnknownError);
      }
      isLoading := false;
    }

    /** A whole click on the analyse button, which is disabled while an
        analysis is loading (the same user renders both halves): the quota
        is never exceeded, and a free account's credits never go below
        zero. */
    method Analyze(user: Option<User>, outcome: AnalysisOutcome) returns (called: bool)
      requires !isLoading && 0 <= analysisCount <= FreeQuota
      modifies this
      ensures 0 <= analysisCount <= FreeQuota
      ensures called <==> !old(AnalyzeRefused(user))
      ensures IsFreeUser(user) ==> AnalysesRemaining(user, analysisCount).count >= 0
      ensures called && outcome.Analysed? && IsFreeUser(user) ==> analysisCount == old(analysisCount) + 1
      ensures !(called && outcome.Analysed? && IsFreeUser(user)) ==> analysisCount == old(analysisCount)
      ensures !isLoading
      ensures called && outcome.Analysed? ==> result == Some(outcome.result) && error == None
      ensures called && outcome.Failed? ==> result == None && error == Some(FailureMessage(outcome.message))
      ensures !called ==> result == old(result)
      ensures !called ==> error == Some(if old(imageFile).None? then SelectImageError else LimitError)
      ensures imageFile == old(imageFile) && previewUrl == old(previewUrl)
    {
      called := BeginAnalyze(user);
      if called {
        EndAnalyze(user, outcome);
      }
    }
  }
}
